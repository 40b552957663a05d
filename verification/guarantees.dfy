// What the reactor's invariant means for the sockets, the slab and the endpoints, in every state of every run.
module Guarantees {
  import opened Bits
  import opened Protocol
  import opened Parsing
  import opened Buffer
  import opened ReactorState
  import opened ReactorLemmas
  import opened ReactorSteps
  import U = Upstream

  // ---- Slots ----

  /** The open connections but the listener. */
  ghost function Members(s: State): set<nat> {
    set c: nat | 0 < c < |s.conns| && Open(s, c)
  }

  function SlotOf(s: State, c: nat): nat {
    if c < |s.conns| && s.conns[c].ring.Live? then s.conns[c].ring.slot else 0
  }

  function FdOf(s: State, c: nat): int {
    if c < |s.conns| then s.conns[c].fd else 0
  }

  ghost function Image<A, B>(xs: set<A>, f: A -> B): set<B> {
    set x | x in xs :: f(x)
  }

  lemma {:induction false} ImageSize<A, B>(xs: set<A>, f: A -> B)
    requires forall x, y :: x in xs && y in xs && f(x) == f(y) ==> x == y
    ensures |Image(xs, f)| == |xs|
    decreases |xs|
  {
    if xs != {} {
      var x :| x in xs;
      ImageSize(xs - {x}, f);
      assert Image(xs, f) == Image(xs - {x}, f) + {f(x)};
    }
  }

  lemma MembersCount(s: State)
    requires TableOk(s)
    ensures |Members(s)| == |s.tab| - 1
  {
    var all := Members(s) + {0};
    var f := (c: nat) => FdOf(s, c);
    forall c, d | c in all && d in all && f(c) == f(d) ensures c == d {
      assert Open(s, c) && Open(s, d);
    }
    ImageSize(all, f);
    forall fd ensures fd in s.tab.Keys <==> fd in Image(all, f) {
      if fd in s.tab {
        var c := s.tab[fd];
        assert Open(s, c) && c in all && f(c) == fd;
      }
    }
    assert Image(all, f) == s.tab.Keys;
    assert |s.tab| == |s.tab.Keys|;
  }

  lemma SameSize<T>(a: set<T>, b: set<T>)
    requires a <= b && |a| == |b|
    ensures a == b
  {
    assert b == a + (b - a);
  }

  /** The slots in use are exactly those of the open connections, one each; the rest is the free list. */
  lemma SlotsArePartitioned(s: State)
    requires Good(s)
    ensures s.slab.LiveSet() == Image(Members(s), (c: nat) => SlotOf(s, c))
    ensures forall c, d :: c in Members(s) && d in Members(s) && SlotOf(s, c) == SlotOf(s, d) ==> c == d
    ensures s.slab.InUse() == |Members(s)|
    ensures forall slot: nat :: slot < s.slab.chunks ==>
            (slot in s.slab.free <==> slot !in Image(Members(s), (c: nat) => SlotOf(s, c)))
  {
    var f := (c: nat) => SlotOf(s, c);
    forall c | c in Members(s) ensures IsLive(s, c) && f(c) in s.slab.LiveSet() {
      assert s.conns[c].ring.Live?;
      assert IsLive(s, c);
    }
    ImageSize(Members(s), f);
    MembersCount(s);
    InUseCountsLive(s.slab);
    SameSize(Image(Members(s), f), s.slab.LiveSet());
  }

  // ---- What a socket has been given ----

  /** The parts of the invariant that the statements on byte streams rest on. */
  lemma CleanStreams(s: State)
    requires Good(s) && s.clean
    ensures ConnsOk(s) && ExchangeOk(s.hist) && RoutesOk(s) && PendingOk(s) && s.outBytes == TotalAccepted(s.hist)
    ensures forall c :: 0 < c < |s.conns| ==> (IsLive(s, c) <==> Open(s, c))
  {}

  function FramesOf(out: seq<Sent>): seq<Frame> {
    if out == [] then [] else FramesOf(out[..|out| - 1]) + [out[|out| - 1].frame]
  }

  lemma {:induction false} RawOutIsRawAll(out: seq<Sent>, limit: uint32)
    requires forall i :: 0 <= i < |out| ==> out[i].frame.Valid(limit)
    ensures RawOut(out) == RawAll(FramesOf(out)) && AllValid(FramesOf(out), limit)
  {
    if out != [] {
      var last := out[|out| - 1];
      RawOutIsRawAll(out[..|out| - 1], limit);
      RawAllSnoc(FramesOf(out[..|out| - 1]), last.frame);
    }
  }

  /** Frames and nothing else: a reader of the whole output finds exactly the frames put on the connection. */
  lemma FramesParse(fs: seq<Frame>, limit: uint32)
    requires AllValid(fs, limit)
    ensures Parse(RawAll(fs), limit) == Parsed(fs, NeedMore)
  {
    ParseFrames(fs, [], limit);
    assert RawAll(fs) + [] == RawAll(fs);
  }

  /**
   * However frames interleave and however writes are split, what a socket accepted and what still
   * waits are whole valid frames, and no reader of what was accepted so far meets an error.
   */
  lemma WireIsWholeFrames(s: State, c: nat)
    requires ConnsOk(s) && c < |s.conns|
    ensures var sent := s.hist[c].accepted; var fs := FramesOf(s.hist[c].out);
            && Parse(sent + s.conns[c].writeRemain, MAX_PAYLOAD_HARD_CAP) == Parsed(fs, NeedMore)
            && Parse(sent, MAX_PAYLOAD_HARD_CAP).frames <= fs
            && Parse(sent, MAX_PAYLOAD_HARD_CAP).ending == NeedMore
  {
    var h := s.hist[c];
    assert BooksOk(s.conns[c], h, |s.conns|, s.cfg.maxPayload);
    RawOutIsRawAll(h.out, MAX_PAYLOAD_HARD_CAP);
    FramesParse(FramesOf(h.out), MAX_PAYLOAD_HARD_CAP);
    ParseGrows(h.accepted, s.conns[c].writeRemain, MAX_PAYLOAD_HARD_CAP);
  }

  // ---- What a socket has given ----

  lemma PrefixParses(fs: seq<Frame>, bytes: seq<byte>, limit: uint32)
    requires AllValid(fs, limit) && RawAll(fs) <= bytes
    ensures fs <= Parse(bytes, limit).frames
  {
    var b := bytes[|RawAll(fs)|..];
    assert bytes == RawAll(fs) + b;
    ParsePrefix(bytes, fs, b, limit);
  }

  /**
   * The frames taken from a connection are, in order, those a one-shot parse of all the bytes it
   * sent finds first. When its reading has come to rest and nothing is pending, they are all of them.
   */
  lemma InputIsAccountedFor(s: State, c: nat)
    requires ConnsOk(s) && c < |s.conns|
    ensures var all := Parse(s.hist[c].received, Limit(s.cfg.maxPayload));
            && s.hist[c].consumed <= all.frames
            && (IsLive(s, c) && Settled(s, c) && !s.conns[c].hasPending ==>
                  all == Parsed(s.hist[c].consumed, NeedMore))
  {
    var k, h, limit := s.conns[c], s.hist[c], Limit(s.cfg.maxPayload);
    assert BooksOk(k, h, |s.conns|, s.cfg.maxPayload);
    PrefixParses(h.consumed, h.received, limit);
    if IsLive(s, c) && Settled(s, c) && !k.hasPending {
      NextAgrees(h.received, h.consumed, k.parser, k.ring.data, limit);
    }
  }

  /** The pending frame is the next frame of the client's bytes: DATA, whole, and not yet taken. */
  lemma PendingIsNext(s: State, c: nat)
    requires ConnsOk(s) && PendingOk(s) && IsLive(s, c) && s.conns[c].hasPending
    ensures HeadReady(s, c) && Head(s, c).hdr == s.conns[c].pending && s.conns[c].pending.opcode == OP_DATA
    ensures s.hist[c].consumed + [Head(s, c)] <= Parse(s.hist[c].received, Limit(s.cfg.maxPayload)).frames
  {
    var k, h, limit := s.conns[c], s.hist[c], Limit(s.cfg.maxPayload);
    PendingFacts(s, c);
    hide ConnsOk, PendingOk;
    TracksConsume(h.received, h.consumed, k.parser, k.ring.data, limit);
    PrefixParses(h.consumed + [Head(s, c)], h.received, limit);
  }

  lemma PendingFacts(s: State, c: nat)
    requires ConnsOk(s) && PendingOk(s) && IsLive(s, c) && s.conns[c].hasPending
    ensures HeadReady(s, c) && s.conns[c].parser.hdr == s.conns[c].pending && s.conns[c].pending.opcode == OP_DATA
    ensures Tracks(s.hist[c].received, s.hist[c].consumed, s.conns[c].parser, s.conns[c].ring.data,
            Limit(s.cfg.maxPayload))
  {
    assert BooksOk(s.conns[c], s.hist[c], |s.conns|, s.cfg.maxPayload);
    assert PendingConnOk(s.conns[c], s.cfg.maxPayload);
  }

  // ---- From one socket to another ----

  lemma {:induction false} AllFrom(out: seq<Sent>, u: nat)
    requires forall i :: 0 <= i < |out| ==> out[i].source == From(u)
    ensures FramesFrom(out, u) == FramesOf(out)
  {
    if out != [] { AllFrom(out[..|out| - 1], u); }
  }

  lemma {:induction false} AllData(out: seq<Sent>)
    requires forall i :: 0 <= i < |out| ==> out[i].frame.hdr.opcode == OP_DATA
    ensures |FramesOf(out)| == |out|
    ensures forall i :: 0 <= i < |out| ==> FramesOf(out)[i].hdr.opcode == OP_DATA
  {
    if out != [] { AllData(out[..|out| - 1]); }
  }

  /**
   * Transparent forwarding, at most once: the bytes handed to an upstream are, in order, those of
   * the frames taken from its client d and sent there, all of them DATA, and nothing else; and the
   * frames taken from d are those at the front of d's own byte stream.
   */
  lemma UpstreamGetsItsClientsFrames(s: State, u: nat, d: nat)
    requires ConnsOk(s) && ExchangeOk(s.hist) && u < |s.conns| && d < |s.conns|
    requires (s.conns[u].role == Up || s.conns[u].role == Connecting) && s.hist[u].origin == Some(d)
    ensures |s.hist[d].dest| == |s.hist[d].consumed|
    ensures var fs := FramesTo(s.hist[d].consumed, s.hist[d].dest, u);
            && s.hist[u].accepted + s.conns[u].writeRemain == RawAll(fs)
            && (forall i :: 0 <= i < |fs| ==> fs[i].hdr.opcode == OP_DATA)
    ensures s.hist[d].consumed <= Parse(s.hist[d].received, Limit(s.cfg.maxPayload)).frames
  {
    var h := s.hist[u];
    assert BooksOk(s.conns[u], h, |s.conns|, s.cfg.maxPayload);
    assert BooksOk(s.conns[d], s.hist[d], |s.conns|, s.cfg.maxPayload);
    AllFrom(h.out, d);
    AllData(h.out);
    RawOutIsRawAll(h.out, MAX_PAYLOAD_HARD_CAP);
    InputIsAccountedFor(s, d);
    assert FramesFrom(s.hist[u].out, d) == FramesTo(s.hist[d].consumed, s.hist[d].dest, u);
  }

  /** The frames on a connection that the reactor made itself. */
  function OwnOn(out: seq<Sent>): seq<Frame> {
    if out == [] then []
    else
      var last := out[|out| - 1];
      OwnOn(out[..|out| - 1]) + (if last.source == Own then [last.frame] else [])
  }

  lemma {:induction false} OwnAreErrors(out: seq<Sent>)
    requires forall i :: 0 <= i < |out| && out[i].source == Own ==> out[i].frame.hdr.opcode == OP_ERROR
    ensures forall i :: 0 <= i < |OwnOn(out)| ==> OwnOn(out)[i].hdr.opcode == OP_ERROR
  {
    if out != [] { OwnAreErrors(out[..|out| - 1]); }
  }

  lemma {:induction false} FromSomebody(out: seq<Sent>, u: nat, i: nat)
    requires i < |out| && out[i].source == From(u)
    ensures FramesFrom(out, u) != []
  {
    if i < |out| - 1 { FromSomebody(out[..|out| - 1], u, i); }
  }

  lemma {:induction false} ToSomebody(consumed: seq<Frame>, dest: seq<Option<nat>>, d: nat)
    requires |dest| == |consumed| && FramesTo(consumed, dest, d) != []
    ensures Some(d) in dest
  {
    var n := |consumed| - 1;
    if dest[n] != Some(d) { ToSomebody(consumed[..n], dest[..n], d); }
  }

  /**
   * A frame that a client got from another connection came from an upstream opened for that client: no reply
   * reaches another client.
   */
  lemma RepliesReachTheirClient(s: State, d: nat, i: nat, u: nat)
    requires ConnsOk(s) && ExchangeOk(s.hist) && RoutesOk(s) && d < |s.conns| && s.conns[d].role == Down
    requires i < |s.hist[d].out| && s.hist[d].out[i].source == From(u)
    ensures u < |s.conns| && IsUpstream(s.conns[u]) && s.hist[u].origin == Some(d)
  {
    assert BooksOk(s.conns[d], s.hist[d], |s.conns|, s.cfg.maxPayload);
    assert s.hist[d].out[i].source.From?;
    assert BooksOk(s.conns[u], s.hist[u], |s.conns|, s.cfg.maxPayload);
    FromSomebody(s.hist[d].out, u, i);
    assert FramesFrom(s.hist[d].out, u) == FramesTo(s.hist[u].consumed, s.hist[u].dest, d);
    ToSomebody(s.hist[u].consumed, s.hist[u].dest, d);
  }

  /**
   * What a client d gets: from each connection u, in order, the frames taken from u and sent to d,
   * those being at the front of u's byte stream, and none unless u is an upstream opened for d; a
   * PONG for each of its PINGs, in order; and ERROR frames of the reactor.
   */
  lemma ClientGetsItsUpstreamsFrames(s: State, d: nat, u: nat)
    requires ConnsOk(s) && ExchangeOk(s.hist) && RoutesOk(s) && d < |s.conns| && u < |s.conns|
             && s.conns[d].role == Down
    ensures |s.hist[u].dest| == |s.hist[u].consumed|
    ensures FramesFrom(s.hist[d].out, u) == FramesTo(s.hist[u].consumed, s.hist[u].dest, d)
    ensures s.hist[u].consumed <= Parse(s.hist[u].received, Limit(s.cfg.maxPayload)).frames
    ensures FramesFrom(s.hist[d].out, u) != [] ==> IsUpstream(s.conns[u]) && s.hist[u].origin == Some(d)
    ensures PongsOn(s.hist[d].out) == PongsDue(s.hist[d].consumed)
    ensures forall i :: 0 <= i < |OwnOn(s.hist[d].out)| ==> OwnOn(s.hist[d].out)[i].hdr.opcode == OP_ERROR
  {
    assert BooksOk(s.conns[d], s.hist[d], |s.conns|, s.cfg.maxPayload);
    assert BooksOk(s.conns[u], s.hist[u], |s.conns|, s.cfg.maxPayload);
    InputIsAccountedFor(s, u);
    OwnAreErrors(s.hist[d].out);
    if FramesFrom(s.hist[d].out, u) != [] {
      var i := SomeFrom(s.hist[d].out, u);
      RepliesReachTheirClient(s, d, i, u);
    }
  }

  lemma {:induction false} SomeFrom(out: seq<Sent>, u: nat) returns (i: nat)
    requires FramesFrom(out, u) != []
    ensures i < |out| && out[i].source == From(u)
  {
    i := |out| - 1;
    if out[i].source != From(u) { i := SomeFrom(out[..i], u); }
  }

  /** The PINGs among the frames. */
  function Pings(consumed: seq<Frame>): seq<Frame> {
    if consumed == [] then []
    else
      var last := consumed[|consumed| - 1];
      Pings(consumed[..|consumed| - 1]) + (if last.hdr.opcode == 2 then [last] else [])
  }

  lemma {:induction false} PongsEcho(consumed: seq<Frame>, i: nat)
    ensures |PongsDue(consumed)| == |Pings(consumed)|
    ensures i < |Pings(consumed)| ==>
              var ping, pong := Pings(consumed)[i], PongsDue(consumed)[i];
              && ping.hdr.opcode == 2 && pong.hdr.opcode == 3 && pong.payload == ping.payload
              && pong.hdr.requestID == ping.hdr.requestID && pong.hdr.streamID == ping.hdr.streamID
              && pong.hdr.routeID == ping.hdr.routeID && pong.hdr.payloadLen == ping.hdr.payloadLen
  {
    if consumed != [] { PongsEcho(consumed[..|consumed| - 1], i); }
  }

  /** A client is sent one PONG for each PING taken from it, in order, with the PING's ids and payload. */
  lemma PingsAreAnswered(s: State, d: nat, i: nat)
    requires ConnsOk(s) && d < |s.conns| && s.conns[d].role == Down
    ensures |PongsOn(s.hist[d].out)| == |Pings(s.hist[d].consumed)|
    ensures i < |PongsOn(s.hist[d].out)| ==>
              var ping, pong := Pings(s.hist[d].consumed)[i], PongsOn(s.hist[d].out)[i];
              && ping.hdr.opcode == 2 && pong.hdr.opcode == 3 && pong.payload == ping.payload
              && pong.hdr.requestID == ping.hdr.requestID && pong.hdr.streamID == ping.hdr.streamID
              && pong.hdr.routeID == ping.hdr.routeID && pong.hdr.payloadLen == ping.hdr.payloadLen
  {
    assert BooksOk(s.conns[d], s.hist[d], |s.conns|, s.cfg.maxPayload);
    PongsEcho(s.hist[d].consumed, i);
  }

  // ---- What endpoints are told ----

  /** A frame passed on to a client is reported as one success, and then as one failure if it is an ERROR. */
  lemma RelayIsReported(s: State, t: State, c: nat, choice: Choice, news: seq<Report>, p: nat, e: nat)
    requires Handled(s, t, c, choice, news) && s.conns[c].role == Up
    requires s.conns[c].peer == Some(p) && s.conns[c].ep == Some(e)
    ensures p < |t.hist| && p < |s.hist| && HeadReady(s, c)
    ensures t.hist[p].out == s.hist[p].out + [Sent(Head(s, c), From(c))]
    ensures news == if Head(s, c).hdr.opcode == 5 then [Success(e), Failure(e)] else [Success(e)]
  {}

  /** What is reported when a frame of each of these connections is passed on or dropped, one after the other. */
  function AllReports(ks: seq<Conn>): seq<Report> {
    if ks == [] then [] else AllReports(ks[..|ks| - 1]) + ReportsOn(ks[|ks| - 1])
  }

  /** How often a frame from an upstream of e was passed on. */
  function Relays(ks: seq<Conn>, e: nat): nat {
    if ks == [] then 0
    else
      var k := ks[|ks| - 1];
      Relays(ks[..|ks| - 1], e) + (if k.peer.Some? && k.ep == Some(e) then 1 else 0)
  }

  /** How often it was an ERROR. */
  function RelayedErrors(ks: seq<Conn>, e: nat): nat {
    if ks == [] then 0
    else
      var k := ks[|ks| - 1];
      RelayedErrors(ks[..|ks| - 1], e) + (if k.peer.Some? && k.ep == Some(e) && k.parser.hdr.opcode == 5 then 1 else 0)
  }

  lemma {:induction false} RelaysAreCounted(ks: seq<Conn>, e: nat)
    ensures multiset(AllReports(ks))[Success(e)] == Relays(ks, e)
    ensures multiset(AllReports(ks))[Failure(e)] == RelayedErrors(ks, e)
  {
    if ks != [] {
      var init, k := ks[..|ks| - 1], ks[|ks| - 1];
      RelaysAreCounted(init, e);
      ReportsOnCounts(k, e);
      hide ReportsOn;
      assert multiset(AllReports(init) + ReportsOn(k)) == multiset(AllReports(init)) + multiset(ReportsOn(k));
    }
  }

  lemma ReportsOnCounts(k: Conn, e: nat)
    ensures multiset(ReportsOn(k))[Success(e)] == if k.peer.Some? && k.ep == Some(e) then 1 else 0
    ensures multiset(ReportsOn(k))[Failure(e)]
            == if k.peer.Some? && k.ep == Some(e) && k.parser.hdr.opcode == 5 then 1 else 0
  {}

  /** The health of e once it has been told these things. */
  function Told1(h: U.Health, reports: seq<Report>, e: nat, failN: nat, passN: nat): U.Health {
    if reports == [] then h
    else
      var before := Told1(h, reports[..|reports| - 1], e, failN, passN);
      match reports[|reports| - 1]
      case Success(x) => if x == e then U.Next(before, U.Success(passN)) else before
      case Failure(x) => if x == e then U.Next(before, U.Fail(failN)) else before
  }

  lemma ToldOneMore(h: U.Health, reports: seq<Report>, r: Report, e: nat, failN: nat, passN: nat)
    ensures var before := Told1(h, reports, e, failN, passN);
            Told1(h, reports + [r], e, failN, passN)
            == match r
               case Success(x) => if x == e then U.Next(before, U.Success(passN)) else before
               case Failure(x) => if x == e then U.Next(before, U.Fail(failN)) else before
  {
    assert (reports + [r])[..|reports|] == reports;
  }

  /**
   * What an upstream sends cannot take its endpoint out of rotation, even if it sends nothing but ERRORs,
   * once the threshold is 2 or more.
   */
  lemma {:induction false} ErrorFramesTakeNobodyDown(h: U.Health, ks: seq<Conn>, e: nat, failN: nat, passN: nat)
    requires h.Eligible() && failN >= 2
    ensures Told1(h, AllReports(ks), e, failN, passN).Eligible()
  {
    if ks != [] {
      ErrorFramesTakeNobodyDown(h, ks[..|ks| - 1], e, failN, passN);
      RelayKeepsUp(h, AllReports(ks[..|ks| - 1]), ks[|ks| - 1], e, failN, passN);
    }
  }

  lemma RelayKeepsUp(h: U.Health, init: seq<Report>, k: Conn, e: nat, failN: nat, passN: nat)
    requires Told1(h, init, e, failN, passN).Eligible() && failN >= 2
    ensures Told1(h, init + ReportsOn(k), e, failN, passN).Eligible()
  {
    PairStaysUp(Told1(h, init, e, failN, passN), failN, passN);
    if k.peer == None || k.ep == None {
      assert init + ReportsOn(k) == init;
    } else {
      var x := k.ep.value;
      ToldOneMore(h, init, Success(x), e, failN, passN);
      ToldOneMore(h, init + [Success(x)], Failure(x), e, failN, passN);
      assert init + [Success(x)] + [Failure(x)] == init + [Success(x), Failure(x)];
      assert ReportsOn(k) == [Success(x)] || ReportsOn(k) == [Success(x), Failure(x)];
      hide Told1, ReportsOn;
    }
  }

  lemma PairStaysUp(h: U.Health, failN: nat, passN: nat)
    requires h.Eligible() && failN >= 2
    ensures var g := U.Next(h, U.Success(passN)); g.Eligible() && U.Next(g, U.Fail(failN)).Eligible()
  {}

  // ---- Conservation ----

  function TotalWaiting(conns: seq<Conn>): nat {
    if conns == [] then 0 else TotalWaiting(conns[..|conns| - 1]) + |conns[|conns| - 1].writeRemain|
  }

  function TotalFramed(hist: seq<Hist>): nat {
    if hist == [] then 0 else TotalFramed(hist[..|hist| - 1]) + |RawOut(hist[|hist| - 1].out)|
  }

  lemma {:induction false} TotalsAdd(conns: seq<Conn>, hist: seq<Hist>)
    requires |conns| == |hist|
    requires forall c :: 0 <= c < |conns| ==> hist[c].accepted + conns[c].writeRemain == RawOut(hist[c].out)
    ensures TotalAccepted(hist) + TotalWaiting(conns) == TotalFramed(hist)
  {
    if conns != [] {
      var n := |conns| - 1;
      TotalsAdd(conns[..n], hist[..n]);
      assert |hist[n].accepted + conns[n].writeRemain| == |RawOut(hist[n].out)|;
    }
  }

  /** The bytes counted as sent and those still waiting are the bytes of all frames ever put on connections. */
  lemma OutBytesAreConserved(s: State)
    requires ConnsOk(s) && s.outBytes == TotalAccepted(s.hist)
    ensures s.outBytes + TotalWaiting(s.conns) == TotalFramed(s.hist)
  {
    forall c | 0 <= c < |s.conns| ensures s.hist[c].accepted + s.conns[c].writeRemain == RawOut(s.hist[c].out) {
      assert BooksOk(s.conns[c], s.hist[c], |s.conns|, s.cfg.maxPayload);
    }
    TotalsAdd(s.conns, s.hist);
  }

  lemma UpsAreMembers(s: State, e: nat)
    requires Good(s)
    ensures Ups(s, e) <= Members(s)
  {
    assert 0 !in Ups(s, e);
  }

  /** Every established upstream is counted for exactly one endpoint, so counts never exceed the connections. */
  lemma ActiveCountsUpstreams(s: State, e: nat, f: nat)
    requires Good(s)
    ensures ActiveOf(s.active, e) == |Ups(s, e)| && Ups(s, e) <= Members(s) && ActiveOf(s.active, e) <= s.slab.InUse()
    ensures e != f ==> Ups(s, e) !! Ups(s, f) && ActiveOf(s.active, e) + ActiveOf(s.active, f) <= s.slab.InUse()
  {
    MembersCount(s);
    UpsAreMembers(s, e);
    UpsAreMembers(s, f);
    SubsetCard(Ups(s, e), Members(s));
    if e != f {
      assert Ups(s, e) !! Ups(s, f);
      assert |Ups(s, e) + Ups(s, f)| == |Ups(s, e)| + |Ups(s, f)|;
      SubsetCard(Ups(s, e) + Ups(s, f), Members(s));
    }
  }

  // ---- Pauses ----

  /** readLoop would pause k although nothing complete is left in its ring and nothing is pending. */
  ghost predicate Stalls(k: Conn, cfg: Config) {
    && PendingConnOk(k, cfg.maxPayload) && !k.hasPending
    && k.ring.Live? && |k.ring.data| < cfg.cap && Drained(k, cfg.maxPayload) && !Short(k, cfg)
  }

  ghost function Holding(parser: ParserState, n: nat): Conn {
    Conn(0, Down, Live(0, seq(n, i => 0)), parser, None, None, ZERO_HEADER, false, [], false)
  }

  /**
   * The marks and the limit fit exactly when readLoop, once it has worked off what is complete, can only
   * pause a connection whose frame is pending. What sendPending and a failed connect do to a client that
   * is paused already is another matter.
   */
  lemma TunedExactly(cfg: Config)
    requires cfg.cap >= 2
    ensures Tuned(cfg) <==> forall k :: !Stalls(k, cfg)
  {
    var limit := Limit(cfg.maxPayload);
    if !(HEADER_SIZE <= cfg.high && HEADER_SIZE < cfg.cap) {
      assert Stalls(Holding(FRESH, if cfg.cap <= HEADER_SIZE then cfg.cap - 1 else HEADER_SIZE - 1), cfg);
    } else if !Tuned(cfg) {
      var held := ParserState(true, NewHeader(OP_DATA, 0, 0, limit, 0));
      assert Stalls(Holding(held, if cfg.cap <= limit then cfg.cap - 1 else limit - 1), cfg);
    }
  }

  /** When payload limit, high water mark and ring size fit, no upstream is ever paused, and its ring never fills. */
  lemma UpstreamsNeverPause(s: State, u: nat)
    requires Good(s) && Tuned(s.cfg) && 0 < u < |s.conns| && Open(s, u) && s.conns[u].role != Down && s.cur == -1
    ensures !s.conns[u].paused && s.conns[u].ring.Live? && |s.conns[u].ring.data| < s.cfg.high
  {
    assert IsLive(s, u);
    assert PendingConnOk(s.conns[u], s.cfg.maxPayload);
  }

  /**
   * Between events the clients on the list of the stuck are exactly those that are paused with nothing
   * pending or whose pending frame has no upstream. Every other client is paused only while its frame is
   * pending for an upstream that is being connected, has a frame pending only for such an upstream, and
   * has room to read otherwise.
   */
  lemma StuckExactly(s: State, c: nat)
    requires Good(s) && Watched(s) && s.cur == -1 && Open(s, c) && s.conns[c].role == Down
    ensures c in s.stuck <==> Stuck(s.conns[c])
    ensures c !in s.stuck && (s.conns[c].paused || s.conns[c].hasPending) ==>
              && s.conns[c].hasPending && s.conns[c].peer.Some? && s.conns[c].peer.value < |s.conns|
              && s.conns[s.conns[c].peer.value].role == Connecting
    ensures c !in s.stuck && !s.conns[c].paused ==> Short(s.conns[c], s.cfg)
  {
    assert if c in s.stuck then Stuck(s.conns[c]) else Restful(s.conns, s.conns[c], s.cfg);
  }

  /** A client is resumed at the low water mark and not above it. */
  lemma LowMarkExactly(cfg: Config)
    requires cfg.low < cfg.high && cfg.low < cfg.cap - 1
    ensures !TooMuch(cfg.low, cfg) && TooMuch(cfg.low + 1, cfg)
  {}

  /** No water marks help: a paused client whose pending frame has no payload is never resumed. */
  lemma NoMarksHelp(s: State, c: nat)
    requires c < |s.conns| && s.conns[c].ring.Live? && !Short(s.conns[c], s.cfg)
             && s.conns[c].parser.hdr.payloadLen == 0
    requires |s.conns[c].ring.data| < s.cfg.cap
    ensures TooMuch(LeftAfter(s, c), s.cfg)
  {}

  /**
   * A connecting upstream that is closed otherwise than by its failing leaves its client's frame pending for
   * nobody.
   */
  lemma ForsakenIsStuck(s: State, t: State, c: nat, p: nat)
    requires Good(s) && Open(s, c) && s.conns[c].role == Connecting && s.conns[c].peer == Some(p) && p < |s.conns|
    requires s.conns[p].hasPending && p != s.cur && Closes(s, t, c) && Watched(t)
    ensures p < |t.conns| && t.conns[p].hasPending && t.conns[p].peer == None && t.conns[p].paused == s.conns[p].paused
    ensures Open(t, p) && p in t.stuck
  {
    assert ConnShrinks(s.conns[p], t.conns[p]);
    assert s.conns[p].role == Down;
    if t.conns[p].peer == Some(c) { assert false; }
    assert if p in t.stuck then Stuck(t.conns[p]) else Restful(t.conns, t.conns[p], t.cfg);
  }

  /**
   * A frame whose payload does not fit the ring is never complete: not in any state, not whatever else
   * arrives, and Next goes on holding its header.
   */
  lemma OversizedIsNeverReady(s: State, c: nat, chunk: seq<byte>)
    requires Good(s) && IsLive(s, c) && s.conns[c].parser.haveHdr && s.conns[c].parser.hdr.payloadLen > s.cfg.cap - 1
    ensures !HeadReady(s, c) && |s.conns| == |s.hist| && !s.conns[c].hasPending
    ensures |s.conns[c].ring.data| + |chunk| < s.cfg.cap ==>
              var t := Received(s, c, chunk);
              !HeadReady(t, c) && Parsed1(t, c).conns[c] == t.conns[c] && !HeadReady(Parsed1(t, c), c)
  {
    assert PendingConnOk(s.conns[c], s.cfg.maxPayload);
    if |s.conns[c].ring.data| + |chunk| < s.cfg.cap {
      var t := Received(s, c, chunk);
      OversizedNeverCompletes(t.conns[c].parser, t.conns[c].ring.data, Limit(t.cfg.maxPayload), t.cfg.cap);
    }
  }

  // ---- A client paused for good ----

  const EXAMPLE := Config(4096, 3072, 1024, 1024, 3)

  function SlabOfNone(): SlabState {
    SlabState(0, [])
  }

  /** A new client on fd sends the header h and the bytes after it, and the header has been parsed. */
  function Arrived(s: State, fd: int, h: Header, rest: seq<byte>): State {
    var n := |s.conns|;
    if |s.hist| == n then
      var a := Adopted(s, fd, Down, None, None).(cur := n);
      Parsed1(Received(a, n, Encode(h) + rest), n)
    else s
  }

  lemma Seated(s: State, fd: int) returns (a: State)
    requires Idle(s) && fd !in s.tab
    ensures a == Adopted(s, fd, Down, None, None).(cur := |s.conns|) && Reading(a, |s.conns|)
    ensures var n := |s.conns|;
            && |a.conns| == |a.hist| == n + 1 && |s.hist| == n && IsLive(a, n) && Open(a, n)
            && a.conns[n].ring.data == [] && a.conns[n].parser == FRESH && !a.conns[n].hasPending
            && a.conns[n].peer == None && a.conns[n].role == Down && a.conns[n].fd == fd
            && a.tab == s.tab[fd := n] && a.cfg == s.cfg && a.clean == s.clean && a.closeSeen == s.closeSeen
            && a.stuck == s.stuck && a.robbed == s.robbed && a.cur == n
  {
    var n := |s.conns|;
    IdleAdopted(s, fd);
    StartReading(Adopted(s, fd, Down, None, None), n);
    a := Adopted(s, fd, Down, None, None).(cur := n);
    hide Good, Reading;
  }

  lemma ClientArrives(s: State, fd: int, h: Header, rest: seq<byte>)
    requires Idle(s) && fd !in s.tab && HEADER_SIZE + |rest| < s.cfg.cap
    requires Validate(h, Limit(s.cfg.maxPayload)) == Ok && |rest| >= h.payloadLen
    ensures var n, b := |s.conns|, Arrived(s, fd, h, rest);
            && Reading(b, n) && |b.conns| == |b.hist| == n + 1 && Open(b, n) && HeadReady(b, n)
            && b.conns[n].role == Down && b.conns[n].peer == None && !b.conns[n].hasPending
            && b.conns[n].parser.hdr == h && b.conns[n].ring.data == rest
            && b.tab == s.tab[fd := n] && b.cfg == s.cfg && b.clean == s.clean && b.closeSeen == s.closeSeen
            && b.stuck == s.stuck
            && b.robbed == s.robbed && b.conns[n].fd == fd && b.cur == n
  {
    hide Adopted, Good, Idle, Reading;
    var n := |s.conns|;
    var a := Seated(s, fd);
    hide Received, Parsed1, Encode, HeadReady, Open, IsLive, Validate;
    HeaderArrives(a, n, h, rest);
  }

  lemma HeaderArrives(a: State, n: nat, h: Header, rest: seq<byte>)
    requires Reading(a, n) && IsLive(a, n) && Open(a, n) && |a.conns| == |a.hist| == n + 1
    requires a.conns[n].ring.data == [] && a.conns[n].parser == FRESH && !a.conns[n].hasPending
    requires HEADER_SIZE + |rest| < a.cfg.cap && Validate(h, Limit(a.cfg.maxPayload)) == Ok && |rest| >= h.payloadLen
    ensures var b := Parsed1(Received(a, n, Encode(h) + rest), n);
            && Reading(b, n) && Open(b, n) && HeadReady(b, n) && b == a.(conns := b.conns, hist := b.hist)
            && |b.conns| == |b.hist| == n + 1 && b.conns[n].parser.hdr == h && b.conns[n].ring.data == rest
            && b.conns[n] == a.conns[n].(ring := b.conns[n].ring, parser := b.conns[n].parser)
  {
    hide Reading;
    ReceiveChunk(a, n, Encode(h) + rest);
    var r := Received(a, n, Encode(h) + rest);
    assert r.conns[n].ring.data == Encode(h) + rest;
    ParsedReads(r, n);
    HeaderParsed(h, rest, Limit(a.cfg.maxPayload));
    hide NextOn, Encode, Validate;
  }

  /** Its frame is pending for an upstream that is being connected, and it is paused. */
  function Waiting(b: State, c: nat, fd: int): State
    requires c < |b.conns|
  {
    PausedAt(Joined(b, c, fd, Connecting, 0), c)
  }

  lemma ClientWaits(b: State, c: nat, fd: int)
    requires Reading(b, c) && Open(b, c) && HeadReady(b, c) && b.conns[c].role == Down && b.conns[c].peer == None
             && fd !in b.tab
    requires b.conns[c].parser.hdr.opcode == OP_DATA && Watched(b) && c !in b.stuck
    ensures var e, u := Waiting(b, c, fd), |b.conns|;
            && Idle(e) && Watched(e) && e.stuck == b.stuck && e.cfg == b.cfg && |e.conns| == u + 1
            && Open(e, u) && e.conns[u].role == Connecting && e.conns[u].ep.Some? && e.conns[u].peer == Some(c)
            && e.conns[c].hasPending && e.conns[c].paused && e.conns[c].ring == b.conns[c].ring
            && e.conns[c].parser == b.conns[c].parser
  {
    var u := |b.conns|;
    var a := Adopted(b, fd, Connecting, Some(0), Some(c));
    AdoptedGood(b, fd, Connecting, Some(0), Some(c));
    AdoptedTable(b, fd, Connecting, Some(0), Some(c));
    assert a.conns[c] == b.conns[c] && a.conns[u].peer == None && a.conns[u].role == Connecting
      && a.hist[u].origin == Some(c);
    assert a.cur == c && a.stuck == b.stuck && a.cfg == b.cfg && a.clean == b.clean && a.closeSeen == b.closeSeen
      && a.panicked == b.panicked;
    PairReady(b, a, c, u);
    hide Good, Reading;
    JoinedGood(b, b, a, c, u);
    PairedShape(a, c, u, b.conns[c].parser.hdr);
    JoinedPauses(a, Paired(a, c, u, b.conns[c].parser.hdr), c, u);
  }

  lemma JoinedPauses(a: State, j: State, c: nat, u: nat)
    requires Good(j) && c < |j.conns| == |a.conns| && u < |a.conns| && c != u && Watched(a) && !a.panicked && a.cur == c
             && c !in a.stuck
    requires j == a.(conns := j.conns) && Open(j, u) && j.conns[u].role == Connecting
    requires j.conns[c].role == Down && j.conns[c].hasPending && j.conns[c].peer == Some(u)
    ensures var e := PausedAt(j, c); Idle(e) && e.stuck == a.stuck && Open(e, u)
  {
    hide Good;
    FlagsGood(j, c, true, true);
    assert j.conns[c].(paused := true, hasPending := true) == j.conns[c].(paused := true);
    PauseEnds(j, j.(conns := j.conns[c := j.conns[c].(paused := true)]), c);
    EndedIsIdle(PausedAt(j, c));
  }

  /** The upstream is established: the client has to be sent, and too much is left in its ring. */
  lemma WaitingIsLost(e: State, c: nat, u: nat)
    requires Idle(e) && Watched(e) && Open(e, u) && e.conns[u].role == Connecting && e.conns[u].ep.Some?
             && e.conns[u].peer == Some(c)
    requires c < |e.conns| && e.conns[c].hasPending && e.conns[c].paused && TooMuch(LeftAfter(e, c), e.cfg)
    ensures var s := Established(e.(cur := c), u);
            SendReady(s, c, u) && s.conns[c].paused && TooMuch(LeftAfter(s, c), s.cfg)
  {
    hide Good, Idle;
    AttendPeer(e, u, c);
    hide Attending, Turned, Watched;
    EstablishedServed(e.(cur := c), u, c);
    assert Established(e.(cur := c), u).cfg == e.cfg;
    hide Established, SendReady;
  }

  /**
   * With fitting marks, a client that pipelines behind its pending frame until it is paused is stuck as
   * soon as its upstream is established, whatever the sockets do then: its frame has to be sent, and more
   * than the low water mark is left.
   */
  lemma PausedForGood()
    ensures var h := NewHeader(OP_DATA, 0, 0, 0, 0);
            var b := Arrived(Fresh(EXAMPLE, SlabOfNone()), 7, h, seq(3072, i => 0));
            && |b.conns| == 2
            && var e := Waiting(b, 1, 8); var s := Established1(e.(cur := 1), 2);
               && Tuned(EXAMPLE) && EXAMPLE.low < EXAMPLE.high && Idle(e) && e.stuck == {}
               && SendReady(s, 1, 2) && s.conns[1].paused && TooMuch(LeftAfter(s, 1), s.cfg)
  {
    var f, h := Fresh(EXAMPLE, SlabOfNone()), NewHeader(OP_DATA, 0, 0, 0, 0);
    FreshIsIdle(EXAMPLE, SlabOfNone());
    assert |f.conns| == 1 && 7 !in f.tab && 8 !in f.tab && f.clean && !f.closeSeen && f.stuck == {} && f.cfg == EXAMPLE;
    hide Fresh;
    ClientArrives(f, 7, h, seq(3072, i => 0));
    var b := Arrived(f, 7, h, seq(3072, i => 0));
    hide Arrived;
    ClientWaits(b, 1, 8);
    var e := Waiting(b, 1, 8);
    hide Waiting;
    WaitingIsLost(e, 1, 2);
  }

  function Established1(s: State, c: nat): State {
    if c < |s.conns| && s.conns[c].ep.Some? then Established(s, c) else s
  }

  // ---- Wakeups, teardown ----

  /**
   * Waiting bytes always have write readiness asked for, and so has a connect under way, until the last
   * waiting bytes of a closed connection have been written to a descriptor that is by now another connection's,
   * with bytes waiting or a connect under way too.
   */
  lemma NoLostWakeup(s: State, c: nat)
    requires Good(s) && !s.robbed && Open(s, c)
    ensures s.conns[c].fd in s.interest
    ensures s.conns[c].writeRemain != [] || s.conns[c].role == Connecting ==> s.interest[s.conns[c].fd].write
  {
    assert WakeupOk(s) && Woken(s, c);
  }

  /**
   * In every state the poller watches exactly the descriptors of the table, and reports readiness for reading
   * of every one of them but those whose connect is under way.
   */
  lemma NobodyIsUnheard(s: State, c: nat)
    requires Good(s) && Open(s, c)
    ensures s.interest.Keys == s.tab.Keys && s.conns[c].fd in s.interest
    ensures s.conns[c].role != Connecting ==> s.interest[s.conns[c].fd].read
  {
    assert PollerOk(s);
  }

  /**
   * A write of waiting bytes keeps every wakeup exactly if it robs nobody; c itself would lose its own if its
   * connect were under way, but nothing is written for it then.
   */
  lemma WakeupsSurviveExactly(s: State, u: State, c: nat, n: nat)
    requires TableOk(s) && WakeupOk(s) && Drew(s, u, c, n) && s.conns[c].writeRemain != []
    ensures WakeupOk(u) <==>
            !Robs(s, c, n) && !(Open(s, c) && s.conns[c].role == Connecting && n == |s.conns[c].writeRemain|)
  {
    forall x ensures Open(u, x) <==> Open(s, x) {}
    if Open(s, c) && s.conns[c].role == Connecting && n == |s.conns[c].writeRemain| {
      assert Woken(s, c) && Open(u, c) && !Woken(u, c);
    } else if Robs(s, c, n) {
      var d := s.tab[s.conns[c].fd];
      assert Open(s, d) && Open(u, d) && u.conns[d] == s.conns[d] && Woken(s, d) && !Woken(u, d);
    } else {
      forall x | Open(u, x)
        ensures Woken(u, x) {
        assert Open(s, x);
      }
    }
  }

  /** A gathering write keeps every wakeup, whoever has the descriptor. */
  lemma StashKeepsWakeups(s: State, u: State, c: nat, bytes: seq<byte>, n: nat)
    requires WakeupOk(s) && Stashed(s, u, c, bytes, n) && s.conns[c].writeRemain == []
    ensures WakeupOk(u)
  {
    forall x | Open(u, x)
      ensures Woken(u, x) {
      assert Open(s, x);
    }
  }

  /** c has been closed with bytes waiting, and d has its descriptor now and bytes waiting too. */
  ghost predicate Reused(s: State, c: nat, d: nat) {
    && Good(s) && !s.robbed && c < |s.conns| == |s.hist| && !Open(s, c) && Open(s, d) && s.conns[c].fd == s.conns[d].fd
    && s.conns[c].writeRemain != [] && s.conns[d].writeRemain != []
  }

  /** Writing out what waits for the closed connection then takes away the wakeup that the other one had. */
  lemma StaleWriteLosesWakeup(s: State, u: State, c: nat, d: nat)
    requires Reused(s, c, d) && Drew(s, u, c, |s.conns[c].writeRemain|)
    ensures s.interest[s.conns[d].fd].write
    ensures u.robbed && Open(u, d) && u.conns[d].writeRemain != []
    ensures u.conns[d].fd in u.interest && !u.interest[u.conns[d].fd].write
  {
    assert WakeupOk(s) && c != d;
    hide Good;
    assert Robs(s, c, |s.conns[c].writeRemain|);
  }

  lemma BothWait(s: State, c: nat, d: nat) returns (t: State)
    requires Good(s) && !s.clean && !s.robbed && c < |s.conns| == |s.hist| && d < |s.conns| && c != d
    requires !Open(s, c) && Open(s, d) && s.conns[c].fd == s.conns[d].fd
    ensures Reused(t, c, d) && !t.clean && |t.conns| == |s.conns| && t.tab == s.tab
    ensures forall x :: 0 <= x < |s.conns| ==> t.conns[x] == s.conns[x].(writeRemain := t.conns[x].writeRemain)
  {
    var fd := s.conns[d].fd;
    t := s.(conns := s.conns[c := s.conns[c].(writeRemain := [0])][d := s.conns[d].(writeRemain := [0])],
            interest := s.interest[fd := Interest(true, true)]);
    assert WakeupOk(s);
    forall x | Open(t, x)
      ensures Woken(t, x) {
      assert Open(s, x);
    }
    assert Wakeful(t);
    SameShapeSound(s, t);
    assert Open(t, d) && !Open(t, c);
  }

  /**
   * A closed client on descriptor 5, still paired with the open upstream 3, and another client on the same
   * descriptor.
   */
  lemma ReusedDescriptor() returns (s: State)
    ensures Reused(s, 1, 2) && !s.clean && s.conns[1].role == s.conns[2].role == Down
    ensures s.conns[1].peer == Some(3) && Open(s, 3) && s.conns[3].role == Up
  {
    var b := OnFive();
    hide Good, Reused, HeadReady, Open, IsLive;
    s := Repaired(b, 5, 9);
  }

  lemma OnFive() returns (b: State)
    ensures Good(b) && |b.conns| == |b.hist| == 2 && Open(b, 1) && HeadReady(b, 1) && b.cur == 1 && !b.robbed
            && 9 !in b.tab
    ensures b.conns[1].role == Down && b.conns[1].peer == None && b.conns[1].fd == 5
            && b.conns[1].parser.hdr.opcode == OP_DATA
  {
    var f, h := Fresh(EXAMPLE, SlabOfNone()), NewHeader(OP_DATA, 0, 0, 0, 0);
    FreshIsIdle(EXAMPLE, SlabOfNone());
    assert |f.conns| == 1 && 5 !in f.tab && 9 !in f.tab && !f.robbed && f.cfg == EXAMPLE;
    hide Fresh;
    ClientArrives(f, 5, h, []);
    hide Arrived;
    b := Arrived(f, 5, h, []);
  }

  /**
   * A write to the client 1 fails and it is closed; its descriptor goes to another client, and its frame to a
   * new upstream.
   */
  lemma Repaired(b: State, fd: int, ufd: int) returns (s: State)
    requires Good(b) && Open(b, 1) && |b.conns| == 2 && b.conns[1].role == Down && b.conns[1].peer == None
             && b.conns[1].fd == fd
    requires b.conns[1].parser.hdr.opcode == OP_DATA && !b.robbed && ufd !in b.tab && b.cur == 1
    ensures Reused(s, 1, 2) && !s.clean && s.conns[1].role == s.conns[2].role == Down
    ensures s.conns[1].peer == Some(3) && Open(s, 3) && s.conns[3].role == Up
  {
    hide Reused, Good, CanPair, Open;
    var t1 := Gone(b, 1, fd, ufd);
    var t2 := TwoMore(t1, 1, 2, 3, fd, ufd);
    s := Rejoined(t2, 1, 2, 3);
  }

  lemma Gone(b: State, c: nat, fd: int, ufd: int) returns (t: State)
    requires Good(b) && 0 < c < |b.conns| && b.cur == c && Open(b, c) && b.conns[c].role == Down
             && b.conns[c].peer == None && b.conns[c].fd == fd
    requires !b.robbed && ufd !in b.tab && b.conns[c].parser.hdr.opcode == OP_DATA
    ensures t == Unlinked(b, c)
    ensures Good(t) && |t.conns| == |b.conns| && t.cur == c && !Open(t, c) && fd !in t.tab && ufd !in t.tab && fd != ufd
            && !t.robbed
    ensures t.conns[c].role == Down && t.conns[c].peer == None && t.conns[c].ring == Nil && t.conns[c].fd == fd
    ensures t.conns[c].parser.hdr.opcode == OP_DATA
  {
    t := Unlinked(b, c);
    UnlinkedGood(b, c);
    UnlinkedFacts(b, c);
    UnlinkedRest(b, c);
    hide Good;
  }

  lemma Rejoined(t2: State, c: nat, d: nat, u: nat) returns (s: State)
    requires Good(t2) && !t2.clean && !t2.robbed && c < d < u && |t2.conns| == |t2.hist| == u + 1 && !Open(t2, c)
    requires Open(t2, d) && t2.conns[d].fd == t2.conns[c].fd && t2.conns[c].role == t2.conns[d].role == Down
    requires Open(t2, u) && t2.conns[u].role == Up && CanPair(t2, c, u, t2.conns[c].parser.hdr)
    ensures Reused(s, c, d) && !s.clean && |s.conns| == u + 1 && s.conns[c].role == s.conns[d].role == Down
    ensures s.conns[c].peer == Some(u) && Open(s, u) && s.conns[u].role == Up
  {
    var hdr := t2.conns[c].parser.hdr;
    PairedGood(t2, c, u, hdr);
    PairedShape(t2, c, u, hdr);
    var t3 := Paired(t2, c, u, hdr);
    hide CanPair, Paired, Reused;
    FlagsGood(t3, c, t3.conns[c].paused, false);
    var t4 := t3.(conns := t3.conns[c := t3.conns[c].(paused := t3.conns[c].paused, hasPending := false)]);
    hide Good;
    assert !Open(t4, c) && Open(t4, d) && Open(t4, u) && |t4.hist| == |t4.conns|;
    s := BothWait(t4, c, d);
    assert Open(s, u);
  }

  lemma TwoMore(t1: State, c: nat, d: nat, u: nat, fd: int, ufd: int) returns (t: State)
    requires Good(t1) && 0 < c < |t1.conns| == d && u == d + 1 && t1.cur == c && !Open(t1, c) && fd !in t1.tab
             && ufd !in t1.tab && fd != ufd && !t1.robbed
    requires t1.conns[c].role == Down && t1.conns[c].peer == None && t1.conns[c].ring == Nil && t1.conns[c].fd == fd
    requires t1.conns[c].parser.hdr.opcode == OP_DATA
    ensures Good(t) && !t.clean && !t.robbed && |t.conns| == |t.hist| == u + 1 && t.conns[c] == t1.conns[c]
            && !Open(t, c)
    ensures Open(t, d) && t.conns[d].fd == fd && t.conns[d].role == Down
    ensures Open(t, u) && t.conns[u].role == Up && CanPair(t, c, u, t.conns[c].parser.hdr)
  {
    hide Good, Open;
    var t2 := Another(t1, c, fd, Down, None, None);
    var t3 := Another(t2, c, ufd, Up, Some(0), Some(c));
    t := t3.(clean := false);
    SpoiledState(t3);
    SameOpen(t3, t);
  }

  lemma SpoiledState(s: State)
    requires Good(s)
    ensures Good(s.(clean := false))
  {
    SpoiledGood(s);
  }

  lemma Another(s: State, c: nat, fd: int, role: Role, ep: Option<nat>, origin: Option<nat>) returns (t: State)
    requires Good(s) && 0 < c < |s.conns| && !Open(s, c) && fd !in s.tab
    requires role == Down || role == Up
    requires role == Down ==> ep == None && origin == None
    requires role == Up ==> ep.Some? && origin == Some(c) && s.conns[c].role == Down
    ensures Good(t) && |t.conns| == |t.hist| == |s.conns| + 1 && t.tab == s.tab[fd := |s.conns|]
    ensures !Open(t, c) && t.cur == s.cur && t.robbed == s.robbed
            && (forall x :: 0 <= x < |s.conns| ==> t.conns[x] == s.conns[x])
    ensures forall x :: Open(t, x) <==> Open(s, x) || x == |s.conns|
    ensures t.conns[|s.conns|].fd == fd && t.conns[|s.conns|].role == role && t.conns[|s.conns|].peer == None
  {
    AdoptedGood(s, fd, role, ep, origin);
    AdoptedTable(s, fd, role, ep, origin);
    t := Adopted(s, fd, role, ep, origin);
    hide Good;
  }

  /** closeConn takes out c and at most its peer, and whoever is paired afterwards is paired mutually. */
  lemma TeardownTakesTwoAtMost(s: State, t: State, c: nat)
    requires Good(s) && Open(s, c) && c != 0 && Closes(s, t, c)
    ensures !Open(t, c) && |t.tab| < |s.tab| <= |t.tab| + 2
    ensures forall x :: Open(s, x) && !Open(t, x) ==> x == c || s.conns[c].peer == Some(x)
    ensures forall x :: 0 <= x < |t.conns| && t.conns[x].peer.Some? ==>
              t.conns[x].peer.value < |t.conns| && t.conns[t.conns[x].peer.value].peer == Some(x)
  {
    hide Good, Shrinks, Closes;
    ClosesFacts(s, t, c);
    ShrinksLeave(s, t, With(c, s.conns[c].peer));
    MutualPeers(t);
    ClosedMembers(s, t, c);
  }

  lemma ClosesFacts(s: State, t: State, c: nat)
    requires Closes(s, t, c)
    ensures Good(t) && |t.conns| == |s.conns| && Shrinks(s, t, With(c, s.conns[c].peer)) && !Open(t, c)
  {
    hide Good;
  }

  lemma MutualPeers(t: State)
    requires Good(t)
    ensures forall x :: 0 <= x < |t.conns| && t.conns[x].peer.Some? ==>
              t.conns[x].peer.value < |t.conns| && t.conns[t.conns[x].peer.value].peer == Some(x)
  {
    assert PeersOk(t);
  }

  lemma ShrinksLeave(s: State, t: State, xs: set<nat>)
    requires Shrinks(s, t, xs)
    ensures forall x :: Open(s, x) && !Open(t, x) ==> x in xs
  {
    forall x | Open(s, x) && !Open(t, x) ensures x in xs {
      assert ConnShrinks(s.conns[x], t.conns[x]);
      assert s.conns[x].fd in s.tab && s.conns[x].fd !in t.tab;
    }
  }

  lemma ClosedMembers(s: State, t: State, c: nat)
    requires Good(s) && Good(t) && Open(s, c) && c != 0 && !Open(t, c) && |t.conns| == |s.conns|
             && Shrinks(s, t, With(c, s.conns[c].peer))
    requires forall x :: Open(s, x) && !Open(t, x) ==> x == c || s.conns[c].peer == Some(x)
    ensures |t.tab| < |s.tab| <= |t.tab| + 2
  {
    MembersCount(s);
    MembersCount(t);
    ShrinksOpen(s, t, With(c, s.conns[c].peer));
    hide Good, Shrinks;
    assert Members(t) <= Members(s) - {c};
    assert Members(s) <= Members(t) + With(c, s.conns[c].peer);
    hide Members, Open;
    CardBetween(Members(t), Members(s), c, s.conns[c].peer);
  }

  lemma CardBetween(a: set<nat>, b: set<nat>, c: nat, p: Option<nat>)
    requires c in b && a <= b - {c} && b <= a + With(c, p)
    ensures |a| < |b| <= |a| + 2
  {
    SubsetCard(a, b - {c});
    SubsetCard(b, a + With(c, p));
    assert |With(c, p)| <= 2;
    assert |a + With(c, p)| <= |a| + |With(c, p)|;
  }
}
