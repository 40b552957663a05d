// Each single step keeps what holds in every state, and what holds while no write has failed.
module ReactorLemmas {
  import opened Bits
  import opened Protocol
  import opened Parsing
  import opened Buffer
  import opened ReactorState

  // ---- Leaving the table ----

  lemma UnlinkedConns(s: State, c: nat)
    requires TableOk(s) && PeersOk(s) && Open(s, c)
    ensures var t := Unlinked(s, c); var k := s.conns[c];
            && |t.conns| == |s.conns|
            && t.conns[c] == k.(peer := None, ring := Nil)
            && (forall x :: 0 <= x < |s.conns| && x != c ==>
                  t.conns[x] == if k.peer == Some(x) then s.conns[x].(peer := None) else s.conns[x])
            && (forall x :: Open(t, x) <==> Open(s, x) && x != c)
  {}

  lemma UnlinkedTable(s: State, c: nat)
    requires TableOk(s) && PeersOk(s) && Open(s, c) && c != 0
    ensures TableOk(Unlinked(s, c))
  {
    UnlinkedConns(s, c);
  }

  lemma UnlinkedRest(s: State, c: nat)
    requires Open(s, c)
    ensures var t := Unlinked(s, c);
            && t.tab == s.tab - {s.conns[c].fd} && |t.tab| == |s.tab| - 1
            && t.slab == (if s.conns[c].ring.Live? then s.slab.AfterPut(s.conns[c].ring.slot) else s.slab)
            && t.hist == s.hist && t.cfg == s.cfg && t.cur == s.cur && t.robbed == s.robbed && t.choked == s.choked
            && t.stuck == (if Forsakes(s, c) then s.stuck + {s.conns[c].peer.value} else s.stuck)
            && t.clean == s.clean && t.closeSeen == s.closeSeen && t.panicked == s.panicked
  {
    var t := Unlinked(s, c);
    assert t.tab.Keys == s.tab.Keys - {s.conns[c].fd};
    assert |t.tab| == |t.tab.Keys| && |s.tab| == |s.tab.Keys|;
  }

  lemma UnlinkedLive(s: State, c: nat)
    requires TableOk(s) && PeersOk(s) && Open(s, c)
    ensures var t := Unlinked(s, c);
            && |t.conns| == |s.conns|
            && (forall x :: IsLive(t, x) <==> IsLive(s, x) && x != c)
            && (forall x :: IsLive(t, x) ==>
               t.conns[x].ring == s.conns[x].ring && t.conns[x].parser == s.conns[x].parser)
            && (forall x :: Open(t, x) <==> Open(s, x) && x != c)
  {
    UnlinkedConns(s, c);
    hide Unlinked, Open;
  }

  lemma UnlinkedRings(s: State, c: nat)
    requires TableOk(s) && PeersOk(s) && RingsOk(s) && Open(s, c) && c != 0
    ensures RingsOk(Unlinked(s, c))
  {
    UnlinkedLive(s, c);
    UnlinkedRest(s, c);
    assert IsLive(s, c);
    PutReturnsOneSlot(s.slab, s.conns[c].ring.slot);
    var t := Unlinked(s, c);
    hide Unlinked, Open, PeersOk, TableOk;
    forall x | 0 < x < |t.conns| ensures t.conns[x].ring.Live? <==> Open(t, x) {
      assert IsLive(t, x) <==> IsLive(s, x) && x != c;
    }
  }

  lemma UnlinkedUps(s: State, c: nat, e: nat)
    requires TableOk(s) && PeersOk(s) && Open(s, c)
    ensures Ups(Unlinked(s, c), e) == Ups(s, e) - {c}
    ensures c in Ups(s, e) <==> s.conns[c].role == Up && s.conns[c].ep == Some(e)
  {
    UnlinkedConns(s, c);
    hide Unlinked, PeersOk, TableOk;
  }

  lemma UnlinkedCount(s: State, c: nat, e: nat)
    requires TableOk(s) && PeersOk(s) && ActiveOk(s) && Open(s, c)
    ensures ActiveOf(Unlinked(s, c).active, e) == |Ups(Unlinked(s, c), e)|
  {
    UnlinkedUps(s, c, e);
    assert ActiveOf(s.active, e) == |Ups(s, e)|;
    if c !in Ups(s, e) { assert Ups(s, e) - {c} == Ups(s, e); }
  }

  lemma UnlinkedActive(s: State, c: nat)
    requires TableOk(s) && PeersOk(s) && ActiveOk(s) && Open(s, c)
    ensures ActiveOk(Unlinked(s, c))
  {
    forall e: nat ensures ActiveOf(Unlinked(s, c).active, e) == |Ups(Unlinked(s, c), e)| {
      UnlinkedCount(s, c, e);
    }
    UnlinkedConns(s, c);
  }

  lemma UnlinkedPeers(s: State, c: nat)
    requires TableOk(s) && PeersOk(s) && Open(s, c)
    ensures PeersOk(Unlinked(s, c))
  {
    UnlinkedConns(s, c);
  }

  lemma UnlinkedQuiet(s: State, c: nat)
    requires TableOk(s) && PeersOk(s) && PendingOk(s) && QuietOk(s) && Open(s, c)
    ensures PendingOk(Unlinked(s, c)) && QuietOk(Unlinked(s, c))
  {
    UnlinkedConns(s, c);
    UnlinkedLive(s, c);
    UnlinkedRest(s, c);
    hide Unlinked, PeersOk, TableOk;
  }

  lemma UnlinkedShrinks(s: State, c: nat)
    requires TableOk(s) && PeersOk(s) && Open(s, c)
    ensures Shrinks(s, Unlinked(s, c), With(c, s.conns[c].peer))
  {
    UnlinkedConns(s, c);
    UnlinkedRest(s, c);
    hide Unlinked, PeersOk;
  }

  lemma UnlinkedStreams(s: State, c: nat)
    requires TableOk(s) && PeersOk(s) && Open(s, c) && Streams(s)
    ensures Streams(Unlinked(s, c))
  {
    UnlinkedConns(s, c);
    var t := Unlinked(s, c);
    assert ConnsOk(t) by { UnlinkedBooks(s, c); }
    assert PairsOk(t) by { UnlinkedPairs(s, c); }
    assert RoutesOk(t) by { UnlinkedRoutes(s, c); }
  }

  lemma UnlinkedRoutes(s: State, c: nat)
    requires TableOk(s) && PeersOk(s) && Open(s, c) && RoutesOk(s)
    ensures RoutesOk(Unlinked(s, c))
  {
    UnlinkedConns(s, c);
    UnlinkedRest(s, c);
    hide Unlinked, PeersOk, TableOk;
  }

  /** Of the clients only one that waited for c may be stuck now. */
  lemma UnlinkedPause(s: State, c: nat)
    requires TableOk(s) && PeersOk(s) && PauseOk(s) && Open(s, c)
    ensures PauseOk(Unlinked(s, c))
  {
    UnlinkedConns(s, c);
    UnlinkedRest(s, c);
    var t := Unlinked(s, c);
    hide Unlinked, TableOk;
    if Watched(t) {
      forall x | Open(t, x) && t.conns[x].role == Down && x != t.cur
        ensures if x in t.stuck then Stuck(t.conns[x]) else Restful(t.conns, t.conns[x], t.cfg) {
        UnlinkedClient(s, t, c, x);
      }
    }
  }

  lemma UnlinkedClient(s: State, t: State, c: nat, x: int)
    requires PeersOk(s) && PauseOk(s) && Watched(s) && Open(s, c) && Open(s, x) && x != c && |t.conns| == |s.conns|
    requires s.conns[x].role == Down && x != s.cur && t.cfg == s.cfg
    requires t.stuck == if Forsakes(s, c) then s.stuck + {s.conns[c].peer.value} else s.stuck
    requires forall y :: 0 <= y < |s.conns| ==> t.conns[y].role == s.conns[y].role
    requires t.conns[x] == if s.conns[c].peer == Some(x) then s.conns[x].(peer := None) else s.conns[x]
    ensures if x in t.stuck then Stuck(t.conns[x]) else Restful(t.conns, t.conns[x], t.cfg)
  {
    assert if x in s.stuck then Stuck(s.conns[x]) else Restful(s.conns, s.conns[x], s.cfg);
  }

  lemma BooksShrink(k: Conn, k': Conn, h: Hist, n: nat, maxPayload: uint32)
    requires BooksOk(k, h, n, maxPayload)
    requires k' == k.(peer := k'.peer, ring := k'.ring, pending := k'.pending, hasPending := k'.hasPending,
             paused := k'.paused)
    requires k'.ring == k.ring || k'.ring == Nil
    ensures BooksOk(k', h, n, maxPayload)
  {}

  lemma UnlinkedBooks(s: State, c: nat)
    requires TableOk(s) && PeersOk(s) && Open(s, c) && ConnsOk(s)
    ensures ConnsOk(Unlinked(s, c))
  {
    UnlinkedConns(s, c);
    UnlinkedRest(s, c);
    var t := Unlinked(s, c);
    hide Unlinked, PeersOk, TableOk, Open, BooksOk;
    forall x | 0 <= x < |t.conns| ensures BooksOk(t.conns[x], t.hist[x], |t.conns|, t.cfg.maxPayload) {
      UnlinkedBook(s, s.conns[x], t.conns[x], x);
    }
  }

  lemma UnlinkedBook(s: State, k: Conn, k': Conn, x: int)
    requires ConnsOk(s) && 0 <= x < |s.conns| && k == s.conns[x]
    requires k' == k.(peer := None, ring := Nil) || k' == k.(peer := None) || k' == k
    ensures BooksOk(k', s.hist[x], |s.conns|, s.cfg.maxPayload)
  {
    hide BooksOk;
    BooksShrink(k, k', s.hist[x], |s.conns|, s.cfg.maxPayload);
  }

  lemma UnlinkedPairs(s: State, c: nat)
    requires TableOk(s) && PeersOk(s) && Open(s, c) && PairsOk(s)
    ensures PairsOk(Unlinked(s, c))
  {
    UnlinkedConns(s, c);
  }

  lemma UnlinkedWakeup(s: State, c: nat)
    requires TableOk(s) && PeersOk(s) && Open(s, c) && WakeupOk(s)
    ensures WakeupOk(Unlinked(s, c))
  {
    UnlinkedConns(s, c);
    var t := Unlinked(s, c);
    forall x | Open(t, x) ensures Woken(t, x) {
      assert Open(s, x);
    }
  }

  lemma UnlinkedWakeful(s: State, c: nat)
    requires TableOk(s) && PeersOk(s) && Open(s, c) && Wakeful(s)
    ensures Wakeful(Unlinked(s, c))
  {
    UnlinkedRest(s, c);
    UnlinkedPoller(s, c);
    if !s.robbed { UnlinkedWakeup(s, c); }
  }

  lemma UnlinkedPoller(s: State, c: nat)
    requires TableOk(s) && PeersOk(s) && Open(s, c) && PollerOk(s)
    ensures PollerOk(Unlinked(s, c))
  {
    UnlinkedConns(s, c);
    var t := Unlinked(s, c);
    assert t.interest.Keys == s.interest.Keys - {s.conns[c].fd} && t.tab.Keys == s.tab.Keys - {s.conns[c].fd};
    forall x | Open(t, x) && t.conns[x].role != Connecting
      ensures t.conns[x].fd in t.interest && t.interest[t.conns[x].fd].read {
      assert Open(s, x);
    }
  }

  /** Taking any open connection but the listener out of the table keeps everything. */
  lemma UnlinkedGood(s: State, c: nat)
    requires Good(s) && Open(s, c) && c != 0
    ensures Good(Unlinked(s, c)) && Shrinks(s, Unlinked(s, c), With(c, s.conns[c].peer))
  {
    UnlinkedTable(s, c);
    UnlinkedRings(s, c);
    UnlinkedActive(s, c);
    UnlinkedPeers(s, c);
    UnlinkedQuiet(s, c);
    UnlinkedShrinks(s, c);
    UnlinkedPause(s, c);
    UnlinkedWakeful(s, c);
    if s.clean { UnlinkedStreams(s, c); }
  }

  // ---- Changes that the structure does not see ----

  /** t differs from s only in waiting bytes, histories, interests, counters of bytes, and flags. */
  ghost predicate SameShape(s: State, t: State) {
    && t.cfg == s.cfg && t.tab == s.tab && t.slab == s.slab && t.active == s.active && t.cur == s.cur
    && t.stuck == s.stuck
    && |t.conns| == |s.conns| && |t.hist| == |s.hist|
    && (forall x :: 0 <= x < |s.conns| ==> t.conns[x] == s.conns[x].(writeRemain := t.conns[x].writeRemain))
  }

  lemma SameShapeUps(s: State, t: State, e: nat)
    requires SameShape(s, t)
    ensures Ups(t, e) == Ups(s, e)
  {
    forall x | 0 <= x < |s.conns| ensures Open(t, x) <==> Open(s, x) {}
  }

  lemma SameShapeSound(s: State, t: State)
    requires Sound(s) && SameShape(s, t) && t.outBytes == TotalAccepted(t.hist)
    requires Wakeful(t) && (Watched(t) ==> Watched(s))
    ensures Sound(t)
  {
    SameShapePause(s, t);
    forall x ensures Open(t, x) <==> Open(s, x) {}
    forall x ensures IsLive(t, x) <==> IsLive(s, x) {}
    forall e: nat ensures ActiveOf(t.active, e) == |Ups(t, e)| { SameShapeUps(s, t, e); }
    assert TableOk(t) && RingsOk(t);
    assert PeersOk(t) by { SameShapePeers(s, t); }
    assert PendingOk(t) && QuietOk(t) by { SameShapePending(s, t); }
  }

  lemma SameShapePause(s: State, t: State)
    requires PauseOk(s) && SameShape(s, t) && (Watched(t) ==> Watched(s))
    ensures PauseOk(t)
  {
    if Watched(t) {
      forall x | Open(t, x) && t.conns[x].role == Down && x != t.cur
        ensures if x in t.stuck then Stuck(t.conns[x]) else Restful(t.conns, t.conns[x], t.cfg) {
        assert Open(s, x);
      }
    }
  }

  /** Nothing that waiting bytes and interests depend on has changed. */
  lemma SameWriting(s: State, t: State)
    requires Wakeful(s) && t.tab == s.tab && t.interest == s.interest && |t.conns| == |s.conns|
    requires (s.robbed ==> t.robbed) && (t.clean ==> s.clean && t.robbed == s.robbed)
    requires forall x :: 0 <= x < |s.conns| ==>
               && t.conns[x].fd == s.conns[x].fd && t.conns[x].role == s.conns[x].role
               && (t.conns[x].writeRemain != [] ==> s.conns[x].writeRemain != [])
    ensures Wakeful(t)
  {
    forall x | Open(t, x) && t.conns[x].role != Connecting
      ensures t.conns[x].fd in t.interest && t.interest[t.conns[x].fd].read {
      assert Open(s, x);
    }
    if !t.robbed {
      forall x | Open(t, x)
        ensures Woken(t, x) {
        assert Open(s, x);
      }
    }
  }

  lemma SameShapePeers(s: State, t: State)
    requires PeersOk(s) && SameShape(s, t)
    ensures PeersOk(t)
  {
    forall x ensures Open(t, x) <==> Open(s, x) {}
  }

  lemma SameShapePending(s: State, t: State)
    requires PendingOk(s) && QuietOk(s) && SameShape(s, t)
    ensures PendingOk(t) && QuietOk(t)
  {
    forall x ensures IsLive(t, x) <==> IsLive(s, x) {}
    forall x | 0 <= x < |t.conns| ensures PendingConnOk(t.conns[x], t.cfg.maxPayload) {
      assert PendingConnOk(s.conns[x], s.cfg.maxPayload);
    }
  }

  lemma {:induction false} TotalUpdate(hist: seq<Hist>, c: nat, h: Hist)
    requires c < |hist|
    ensures TotalAccepted(hist[c := h]) == TotalAccepted(hist) - |hist[c].accepted| + |h.accepted|
  {
    var n := |hist| - 1;
    if c == n {
      assert hist[c := h][..n] == hist[..n];
    } else {
      TotalUpdate(hist[..n], c, h);
      assert hist[c := h][..n] == hist[..n][c := h];
    }
  }

  // ---- Changes to one connection's ring, parser and flags ----

  /** The same connection in the same place, its ring holding perhaps other bytes. */
  ghost predicate SamePlace(b: Conn, k: Conn, cap: int) {
    && k.fd == b.fd && k.role == b.role && k.ep == b.ep && k.peer == b.peer && k.ring.Live? == b.ring.Live?
    && (k.ring.Live? ==> k.ring.slot == b.ring.slot && |k.ring.data| < cap)
  }

  ghost predicate Quiet(k: Conn, active: bool, cfg: Config) {
    Tuned(cfg) && k.ring.Live? && k.role != Down ==> !k.paused && (!active ==> Drained(k, cfg.maxPayload))
  }

  /** Replacing one connection by a well-behaved one in the same place keeps everything structural. */
  lemma LocalSound(s: State, c: nat, k: Conn, hist: seq<Hist>)
    requires Sound(s) && c < |s.conns| == |hist| && SamePlace(s.conns[c], k, s.cfg.cap)
    requires PendingConnOk(k, s.cfg.maxPayload) && Quiet(k, c == s.cur, s.cfg)
    requires TotalAccepted(hist) == TotalAccepted(s.hist)
    requires k.writeRemain == s.conns[c].writeRemain && (c == s.cur || RestKept(s, c, k))
    ensures Sound(s.(conns := s.conns[c := k], hist := hist))
  {
    LocalActive(s, c, k, hist);
    LocalRings(s, c, k, hist);
    LocalPeers(s, c, k, hist);
    LocalQuiet(s, c, k, hist);
    LocalWakeful(s, c, k, hist);
    LocalPause(s, c, k, hist);
    hide TableOk, RingsOk, ActiveOk, PeersOk, PendingOk, QuietOk, Wakeful, PauseOk;
  }

  lemma LocalActive(s: State, c: nat, k: Conn, hist: seq<Hist>)
    requires TableOk(s) && ActiveOk(s) && c < |s.conns| == |hist| && SamePlace(s.conns[c], k, s.cfg.cap)
    ensures TableOk(s.(conns := s.conns[c := k], hist := hist)) && ActiveOk(s.(conns := s.conns[c := k], hist := hist))
  {
    var t := s.(conns := s.conns[c := k], hist := hist);
    forall x ensures Open(t, x) <==> Open(s, x) {}
    forall e: nat ensures Ups(t, e) == Ups(s, e) {}
  }

  lemma LocalWakeful(s: State, c: nat, k: Conn, hist: seq<Hist>)
    requires Wakeful(s) && c < |s.conns| && k.fd == s.conns[c].fd && k.writeRemain == s.conns[c].writeRemain
    requires k.role == s.conns[c].role
    ensures Wakeful(s.(conns := s.conns[c := k], hist := hist))
  {
    SameWriting(s, s.(conns := s.conns[c := k], hist := hist));
  }

  /** What is asked of a client's replacement when it is not being served. */
  ghost predicate RestKept(s: State, c: nat, k: Conn) {
    Watched(s) && Open(s, c) && k.role == Down ==> if c in s.stuck then Stuck(k) else Restful(s.conns, k, s.cfg)
  }

  lemma LocalPause(s: State, c: nat, k: Conn, hist: seq<Hist>)
    requires PauseOk(s) && c < |s.conns| && SamePlace(s.conns[c], k, s.cfg.cap) && (c == s.cur || RestKept(s, c, k))
    ensures PauseOk(s.(conns := s.conns[c := k], hist := hist))
  {
    var t := s.(conns := s.conns[c := k], hist := hist);
    if Watched(t) {
      forall x | Open(t, x) && t.conns[x].role == Down && x != t.cur
        ensures if x in t.stuck then Stuck(t.conns[x]) else Restful(t.conns, t.conns[x], t.cfg) {
        assert Open(s, x);
      }
    }
  }

  lemma LocalRings(s: State, c: nat, k: Conn, hist: seq<Hist>)
    requires RingsOk(s) && c < |s.conns| && SamePlace(s.conns[c], k, s.cfg.cap)
    ensures RingsOk(s.(conns := s.conns[c := k], hist := hist))
  {
    var t := s.(conns := s.conns[c := k], hist := hist);
    forall x ensures Open(t, x) <==> Open(s, x) {}
    forall x ensures IsLive(t, x) <==> IsLive(s, x) {}
  }

  lemma LocalPeers(s: State, c: nat, k: Conn, hist: seq<Hist>)
    requires PeersOk(s) && c < |s.conns| && SamePlace(s.conns[c], k, s.cfg.cap)
    ensures PeersOk(s.(conns := s.conns[c := k], hist := hist))
  {
    var t := s.(conns := s.conns[c := k], hist := hist);
    forall x ensures Open(t, x) <==> Open(s, x) {}
  }

  lemma LocalQuiet(s: State, c: nat, k: Conn, hist: seq<Hist>)
    requires PendingOk(s) && QuietOk(s) && c < |s.conns| && SamePlace(s.conns[c], k, s.cfg.cap)
    requires PendingConnOk(k, s.cfg.maxPayload) && Quiet(k, c == s.cur, s.cfg)
    ensures PendingOk(s.(conns := s.conns[c := k], hist := hist)) && QuietOk(s.(conns := s.conns[c := k], hist := hist))
  {
    var t := s.(conns := s.conns[c := k], hist := hist);
    forall x | IsLive(t, x) ensures IsLive(s, x) {}
  }

  /** What a change to one connection and its history must respect to keep the streams. */
  lemma LocalStreams(s: State, c: nat, k: Conn, h: Hist)
    requires Streams(s) && c < |s.conns|
    requires k.fd == s.conns[c].fd && k.role == s.conns[c].role && k.peer == s.conns[c].peer
    requires k.writeRemain == s.conns[c].writeRemain && h.origin == s.hist[c].origin
    requires BooksOk(k, h, |s.conns|, s.cfg.maxPayload)
    requires ExchangeOk(s.hist[c := h]) && SameRoutes(s.hist[c], h)
    ensures Streams(s.(conns := s.conns[c := k], hist := s.hist[c := h]))
  {
    var t := s.(conns := s.conns[c := k], hist := s.hist[c := h]);
    LocalSameWiring(s, c, k, h);
    WiringRoutes(s, t);
    hide BooksOk, ExchangeOk, ConnsOk, PairsOk, RoutesOk, SameWiring;
    LocalBooks(s, c, k, h);
    WiringPairs(s, t);
  }

  /** No new destinations. */
  ghost predicate SameRoutes(b: Hist, h: Hist) {
    forall d :: Some(d) in h.dest ==> Some(d) in b.dest
  }

  lemma WiringRoutes(s: State, z: State)
    requires RoutesOk(s) && SameWiring(s, z)
    requires forall x :: 0 <= x < |s.hist| ==> SameRoutes(s.hist[x], z.hist[x])
    ensures RoutesOk(z)
  {}

  lemma LocalBooks(s: State, c: nat, k: Conn, h: Hist)
    requires ConnsOk(s) && c < |s.conns| && BooksOk(k, h, |s.conns|, s.cfg.maxPayload)
    ensures ConnsOk(s.(conns := s.conns[c := k], hist := s.hist[c := h]))
  {
    hide BooksOk;
    ConnsExcept(s, s.(conns := s.conns[c := k], hist := s.hist[c := h]), {c});
  }

  lemma LocalSameWiring(s: State, c: nat, k: Conn, h: Hist)
    requires c < |s.conns| == |s.hist|
    requires k.fd == s.conns[c].fd && k.role == s.conns[c].role && k.peer == s.conns[c].peer
    requires k.writeRemain == s.conns[c].writeRemain && h.origin == s.hist[c].origin
    ensures SameWiring(s, s.(conns := s.conns[c := k], hist := s.hist[c := h]))
  {}

  /** The books of all connections hold if those of the changed ones do. */
  lemma ConnsExcept(s: State, z: State, xs: set<nat>)
    requires ConnsOk(s) && z.cfg == s.cfg && |z.conns| == |s.conns| == |z.hist|
    requires forall x :: 0 <= x < |s.conns| && x !in xs ==> z.conns[x] == s.conns[x] && z.hist[x] == s.hist[x]
    requires forall x :: x in xs && x < |s.conns| ==> BooksOk(z.conns[x], z.hist[x], |s.conns|, s.cfg.maxPayload)
    ensures ConnsOk(z)
  {
    forall x | 0 <= x < |z.conns| ensures BooksOk(z.conns[x], z.hist[x], |z.conns|, z.cfg.maxPayload) {
      if x !in xs { assert BooksOk(s.conns[x], s.hist[x], |s.conns|, s.cfg.maxPayload); }
    }
  }

  // ---- Histories grow at the end ----

  lemma RawOutSnoc(out: seq<Sent>, e: Sent)
    ensures RawOut(out + [e]) == RawOut(out) + Raw(e.frame)
  {
    assert (out + [e])[..|out|] == out;
  }

  lemma FramesFromSnoc(out: seq<Sent>, e: Sent, u: nat)
    ensures FramesFrom(out + [e], u) == FramesFrom(out, u) + (if e.source == From(u) then [e.frame] else [])
  {
    assert (out + [e])[..|out|] == out;
  }

  lemma PongsOnSnoc(out: seq<Sent>, e: Sent)
    ensures PongsOn(out + [e]) == PongsOn(out) + (if e.source == Pong then [e.frame] else [])
  {
    assert (out + [e])[..|out|] == out;
  }

  lemma FramesToSnoc(consumed: seq<Frame>, dest: seq<Option<nat>>, f: Frame, t: Option<nat>, d: nat)
    requires |dest| == |consumed|
    ensures FramesTo(consumed + [f], dest + [t], d) == FramesTo(consumed, dest, d) + (if t == Some(d) then [f] else [])
  {
    assert (consumed + [f])[..|consumed|] == consumed && (dest + [t])[..|dest|] == dest;
  }

  lemma PongsDueSnoc(consumed: seq<Frame>, f: Frame)
    ensures PongsDue(consumed + [f]) == PongsDue(consumed) + (if f.hdr.opcode == OP_PING then [PongFor(f)] else [])
  {
    assert (consumed + [f])[..|consumed|] == consumed;
  }

  /** Noting a frame that comes from nobody leaves every exchange as it was. */
  lemma ExchangeNoted(hist: seq<Hist>, c: nat, e: Sent)
    requires ExchangeOk(hist) && c < |hist| && !e.source.From?
    ensures ExchangeOk(hist[c := hist[c].(out := hist[c].out + [e])])
  {
    var hist' := hist[c := hist[c].(out := hist[c].out + [e])];
    forall u: nat, d: nat | u < |hist'| && d < |hist'| && |hist'[u].dest| == |hist'[u].consumed|
      ensures FramesFrom(hist'[d].out, u) == FramesTo(hist'[u].consumed, hist'[u].dest, d) {
      FramesFromSnoc(hist[c].out, e, u);
      assert FramesFrom(hist[d].out, u) == FramesTo(hist[u].consumed, hist[u].dest, d);
    }
  }

  /** So does consuming a frame that goes nowhere. */
  lemma ExchangeDropped(hist: seq<Hist>, c: nat, f: Frame)
    requires ExchangeOk(hist) && c < |hist| && |hist[c].dest| == |hist[c].consumed|
    ensures ExchangeOk(hist[c := hist[c].(consumed := hist[c].consumed + [f], dest := hist[c].dest + [None])])
  {
    var hist' := hist[c := hist[c].(consumed := hist[c].consumed + [f], dest := hist[c].dest + [None])];
    forall u: nat, d: nat | u < |hist'| && d < |hist'| && |hist'[u].dest| == |hist'[u].consumed|
      ensures FramesFrom(hist'[d].out, u) == FramesTo(hist'[u].consumed, hist'[u].dest, d) {
      FramesToSnoc(hist[c].consumed, hist[c].dest, f, None, d);
      assert FramesFrom(hist[d].out, u) == FramesTo(hist[u].consumed, hist[u].dest, d);
    }
  }

  /** A frame consumed from u and noted on d as coming from u keeps both sides equal, for all pairs. */
  lemma ExchangeForwarded(hist: seq<Hist>, u: nat, d: nat, f: Frame)
    requires ExchangeOk(hist) && u < |hist| && d < |hist| && u != d && |hist[u].dest| == |hist[u].consumed|
    ensures ExchangeOk(hist[u := hist[u].(consumed := hist[u].consumed + [f], dest := hist[u].dest + [Some(d)])]
                           [d := hist[d].(out := hist[d].out + [Sent(f, From(u))])])
  {
    var hist' := hist[u := hist[u].(consumed := hist[u].consumed + [f], dest := hist[u].dest + [Some(d)])]
                     [d := hist[d].(out := hist[d].out + [Sent(f, From(u))])];
    forall x: nat, y: nat | x < |hist'| && y < |hist'| && |hist'[x].dest| == |hist'[x].consumed|
      ensures FramesFrom(hist'[y].out, x) == FramesTo(hist'[x].consumed, hist'[x].dest, y) {
      FramesFromSnoc(hist[d].out, Sent(f, From(u)), x);
      FramesToSnoc(hist[u].consumed, hist[u].dest, f, Some(d), y);
      assert FramesFrom(hist[y].out, x) == FramesTo(hist[x].consumed, hist[x].dest, y);
      hide FramesFrom, FramesTo;
    }
  }

  // ---- One connection's books ----

  lemma OutputNoted(k: Conn, h: Hist, k': Conn, h': Hist, f: Frame, src: Source)
    requires OutputOk(k, h) && f.Valid(MAX_PAYLOAD_HARD_CAP)
    requires k'.role == k.role && h'.origin == h.origin && h'.out == h.out + [Sent(f, src)]
    requires h'.accepted + k'.writeRemain == h.accepted + k.writeRemain + Raw(f)
    requires k.role == Down ==> PongsDue(h'.consumed) == PongsDue(h.consumed) + (if src == Pong then [f] else [])
    requires k.role == Up || k.role == Connecting ==> src == From(h.origin.value) && f.hdr.opcode == OP_DATA
    requires src == Own ==> f.hdr.opcode == OP_ERROR
    ensures OutputOk(k', h')
  {
    RawOutSnoc(h.out, Sent(f, src));
    PongsOnSnoc(h.out, Sent(f, src));
  }

  lemma OutputConsumed(k: Conn, h: Hist, k': Conn, h': Hist, f: Frame)
    requires OutputOk(k, h) && k'.role == k.role && k'.writeRemain == k.writeRemain
    requires h' == h.(consumed := h.consumed + [f], dest := h'.dest)
    requires k.role == Down ==> f.hdr.opcode != OP_PING
    ensures OutputOk(k', h')
  {
    PongsDueSnoc(h.consumed, f);
  }

  lemma InputConsumed(k: Conn, h: Hist, k': Conn, h': Hist, d: Option<nat>, maxPayload: uint32)
    requires InputOk(k, h, maxPayload) && k.ring.Live? && k.parser.haveHdr && |k.ring.data| >= k.parser.hdr.payloadLen
    requires k'.ring == Live(k.ring.slot, k.ring.data[k.parser.hdr.payloadLen..])
    requires k'.parser == ParserState(false, k.parser.hdr) && k'.role == k.role
    requires h'.received == h.received && h'.dest == h.dest + [d]
    requires h'.consumed == h.consumed + [HeadFrame(k.parser, k.ring.data)]
    requires k.role == Down && d.Some? ==> k.parser.hdr.opcode == OP_DATA
    requires (k.role == Up || k.role == Connecting) && d.Some? ==> d == h'.origin
    requires h'.origin == h.origin
    ensures InputOk(k', h', maxPayload)
  {
    TracksConsume(h.received, h.consumed, k.parser, k.ring.data, Limit(maxPayload));
    TracksPrefix(h'.received, h'.consumed, k'.parser, k'.ring.data, Limit(maxPayload));
  }

  lemma TracksPrefix(received: seq<byte>, frames: seq<Frame>, p: ParserState, data: seq<byte>, limit: uint32)
    requires Tracks(received, frames, p, data, limit)
    ensures RawAll(frames) <= received
  {}

  // ---- Wiring ----

  /** The same descriptors, roles, peers and origins. */
  ghost predicate SameWiring(s: State, z: State) {
    && z.tab == s.tab && |z.conns| == |s.conns| == |s.hist| == |z.hist|
    && (forall x :: 0 <= x < |s.conns| ==>
          && z.conns[x].fd == s.conns[x].fd && z.conns[x].role == s.conns[x].role && z.conns[x].peer == s.conns[x].peer
          && z.hist[x].origin == s.hist[x].origin)
  }

  lemma WiringPairs(s: State, z: State)
    requires PairsOk(s) && SameWiring(s, z)
    ensures PairsOk(z)
  {
    forall x ensures Open(z, x) <==> Open(s, x) {}
  }

  lemma DeliveredWiring(s: State, t: State, c: nat, bytes: seq<byte>)
    requires Delivered(s, t, c, bytes)
    ensures SameWiring(s, t)
  {}

  lemma WiringTrans(s: State, t: State, z: State)
    requires SameWiring(s, t) && SameWiring(t, z)
    ensures SameWiring(s, z)
  {}

  /** After a delivery from s to t and bookkeeping from t to z, the streams hold if the books do. */
  lemma FinishStreams(s: State, t: State, z: State, c: nat, bytes: seq<byte>)
    requires PairsOk(s) && Open(s, c)
    requires Delivered(s, t, c, bytes) && SameWiring(t, z)
    requires ConnsOk(z) && ExchangeOk(z.hist) && RoutesOk(z)
    ensures Streams(z)
  {
    DeliveredWiring(s, t, c, bytes);
    WiringPairs(s, t);
    WiringPairs(t, z);
  }

  lemma TotalSame(hist: seq<Hist>, c: nat, h: Hist)
    requires c < |hist| && |h.accepted| == |hist[c].accepted|
    ensures TotalAccepted(hist[c := h]) == TotalAccepted(hist)
  {
    TotalUpdate(hist, c, h);
  }

  // ---- Noting a frame of the reactor's own ----

  lemma NotedSound(t: State, c: nat, f: Frame, src: Source)
    requires Sound(t) && c < |t.hist|
    ensures Sound(Noted(t, c, f, src))
  {
    TotalSame(t.hist, c, t.hist[c].(out := t.hist[c].out + [Sent(f, src)]));
    SameWriting(t, Noted(t, c, f, src));
    SameShapeSound(t, Noted(t, c, f, src));
  }

  lemma EmitBooks(s: State, t: State, c: nat, f: Frame)
    requires ConnsOk(s) && Delivered(s, t, c, Raw(f)) && f.Valid(MAX_PAYLOAD_HARD_CAP) && f.hdr.opcode == OP_ERROR
             && s.conns[c].role == Down
    ensures BooksOk(t.conns[c], Noted(t, c, f, Own).hist[c], |s.conns|, s.cfg.maxPayload)
  {
    var h := Noted(t, c, f, Own).hist[c];
    assert BooksOk(s.conns[c], s.hist[c], |s.conns|, s.cfg.maxPayload);
    OutputNoted(s.conns[c], s.hist[c], t.conns[c], h, f, Own);
  }

  lemma EmitExchange(s: State, t: State, c: nat, f: Frame)
    requires ExchangeOk(s.hist) && Delivered(s, t, c, Raw(f))
    ensures ExchangeOk(Noted(t, c, f, Own).hist)
  {
    AcceptedExchange(s.hist, c, t.hist[c].accepted);
    ExchangeNoted(t.hist, c, Sent(f, Own));
  }

  lemma AcceptedExchange(hist: seq<Hist>, c: nat, a: seq<byte>)
    requires ExchangeOk(hist) && c < |hist|
    ensures ExchangeOk(hist[c := hist[c].(accepted := a)])
  {
    var hist' := hist[c := hist[c].(accepted := a)];
    forall u: nat, d: nat | u < |hist'| && d < |hist'| && |hist'[u].dest| == |hist'[u].consumed|
      ensures FramesFrom(hist'[d].out, u) == FramesTo(hist'[u].consumed, hist'[u].dest, d) {
      assert FramesFrom(hist[d].out, u) == FramesTo(hist[u].consumed, hist[u].dest, d);
    }
  }

  /** A whole frame of the reactor's own, handed to a client's socket, keeps everything. */
  lemma EmitGood(s: State, t: State, c: nat, f: Frame)
    requires Good(s) && Sound(t) && c < |s.conns|
    requires t.clean ==> s.clean && Delivered(s, t, c, Raw(f)) && Open(s, c) && s.conns[c].role == Down
    requires f.Valid(MAX_PAYLOAD_HARD_CAP) && f.hdr.opcode == OP_ERROR && c < |t.hist|
    ensures Good(Noted(t, c, f, Own))
  {
    NotedSound(t, c, f, Own);
    if t.clean { EmitStreams(s, t, c, f); }
  }

  lemma EmitConns(s: State, t: State, c: nat, f: Frame)
    requires ConnsOk(s) && Delivered(s, t, c, Raw(f)) && f.Valid(MAX_PAYLOAD_HARD_CAP) && f.hdr.opcode == OP_ERROR
             && s.conns[c].role == Down
    ensures ConnsOk(Noted(t, c, f, Own))
  {
    EmitBooks(s, t, c, f);
    hide BooksOk;
    ConnsExcept(s, Noted(t, c, f, Own), {c});
  }

  lemma NotedSameWiring(t: State, c: nat, f: Frame)
    requires c < |t.conns| == |t.hist|
    ensures SameWiring(t, Noted(t, c, f, Own))
  {}

  lemma EmitStreams(s: State, t: State, c: nat, f: Frame)
    requires TableOk(s) && Streams(s) && Delivered(s, t, c, Raw(f)) && f.Valid(MAX_PAYLOAD_HARD_CAP)
             && f.hdr.opcode == OP_ERROR
    requires Open(s, c) && s.conns[c].role == Down
    ensures Streams(Noted(t, c, f, Own))
  {
    EmitConns(s, t, c, f);
    EmitExchange(s, t, c, f);
    NotedSameWiring(t, c, f);
    DeliveredWiring(s, t, c, Raw(f));
    WiringTrans(s, t, Noted(t, c, f, Own));
    WiringRoutes(s, Noted(t, c, f, Own));
    hide ConnsOk, ExchangeOk, RoutesOk, PairsOk, SameWiring, Delivered;
    FinishStreams(s, t, Noted(t, c, f, Own), c, Raw(f));
  }

  // ---- Consuming ----

  /** c's ring starts with the complete payload of the held header. */
  ghost predicate HeadReady(s: State, c: nat) {
    && c < |s.conns| == |s.hist| && s.conns[c].ring.Live? && s.conns[c].parser.haveHdr
    && |s.conns[c].ring.data| >= s.conns[c].parser.hdr.payloadLen
  }

  ghost function Head(s: State, c: nat): Frame
    requires HeadReady(s, c)
  {
    HeadFrame(s.conns[c].parser, s.conns[c].ring.data)
  }

  lemma HeadValid(s: State, c: nat)
    requires HeadReady(s, c) && PendingOk(s)
    ensures Head(s, c).Valid(Limit(s.cfg.maxPayload)) && Head(s, c).Valid(MAX_PAYLOAD_HARD_CAP)
  {
    assert PendingConnOk(s.conns[c], s.cfg.maxPayload);
  }

  lemma ConsumedSound(s: State, c: nat, d: Option<nat>)
    requires Sound(s) && HeadReady(s, c) && c == s.cur
    ensures Sound(Consumed(s, c, d))
  {
    var z := Consumed(s, c, d);
    TotalSame(s.hist, c, z.hist[c]);
    assert IsLive(s, c);
    LocalSound(s, c, z.conns[c], z.hist);
  }

  lemma DropBooks(s: State, c: nat)
    requires ConnsOk(s) && HeadReady(s, c)
    requires s.conns[c].role == Down ==> s.conns[c].parser.hdr.opcode != OP_PING
    ensures var z := Consumed(s, c, None); BooksOk(z.conns[c], z.hist[c], |s.conns|, s.cfg.maxPayload)
  {
    var z := Consumed(s, c, None);
    ConsumedBooks(s.conns[c], s.hist[c], z.conns[c], z.hist[c], None, |s.conns|, s.cfg.maxPayload);
  }

  lemma DropStreams(s: State, c: nat)
    requires Streams(s) && HeadReady(s, c)
    requires s.conns[c].role == Down ==> s.conns[c].parser.hdr.opcode != OP_PING
    ensures Streams(Consumed(s, c, None))
  {
    var z := Consumed(s, c, None);
    DropBooks(s, c);
    BookLengths(s, c);
    ExchangeDropped(s.hist, c, Head(s, c));
    LocalStreams(s, c, z.conns[c], z.hist[c]);
  }

  lemma BookLengths(s: State, c: nat)
    requires ConnsOk(s) && c < |s.conns|
    ensures |s.hist[c].dest| == |s.hist[c].consumed|
  {
    assert BooksOk(s.conns[c], s.hist[c], |s.conns|, s.cfg.maxPayload);
  }

  /** Consuming a frame that goes nowhere and needs no PONG keeps everything. */
  lemma DropGood(s: State, c: nat)
    requires Good(s) && HeadReady(s, c) && c == s.cur
    requires s.conns[c].role == Down ==> s.conns[c].parser.hdr.opcode != OP_PING
    ensures Good(Consumed(s, c, None))
  {
    ConsumedSound(s, c, None);
    if s.clean { DropStreams(s, c); }
  }

  // ---- PONG ----

  ghost function Ponged(t: State, c: nat, f: Frame): State
    requires HeadReady(t, c)
  {
    Noted(Consumed(t, c, None), c, PongFor(f), Pong)
  }

  /** c has a PING ready to answer, and t is s after its PONG was handed to c's socket. */
  ghost predicate PongGiven(s: State, t: State, c: nat) {
    && HeadReady(s, c) && s.conns[c].role == Down && s.conns[c].parser.hdr.opcode == OP_PING
    && Delivered(s, t, c, Raw(PongFor(Head(s, c))))
  }

  lemma PongBooks(s: State, t: State, c: nat)
    requires ConnsOk(s) && PendingOk(s) && PongGiven(s, t, c)
    ensures var z := Ponged(t, c, Head(s, c)); BooksOk(z.conns[c], z.hist[c], |s.conns|, s.cfg.maxPayload)
  {
    var f := Head(s, c);
    var z := Ponged(t, c, f);
    HeadValid(s, c);
    PongsDueSnoc(s.hist[c].consumed, f);
    assert BooksOk(s.conns[c], s.hist[c], |s.conns|, s.cfg.maxPayload);
    OutputNoted(s.conns[c], s.hist[c], z.conns[c], z.hist[c], PongFor(f), Pong);
    InputConsumed(s.conns[c], s.hist[c], z.conns[c], z.hist[c], None, s.cfg.maxPayload);
  }

  lemma PongExchange(s: State, t: State, c: nat)
    requires ConnsOk(s) && ExchangeOk(s.hist) && PongGiven(s, t, c)
    ensures ExchangeOk(Ponged(t, c, Head(s, c)).hist)
  {
    var f := Head(s, c);
    BookLengths(s, c);
    AcceptedExchange(s.hist, c, t.hist[c].accepted);
    ExchangeDropped(t.hist, c, f);
    ExchangeNoted(Consumed(t, c, None).hist, c, Sent(PongFor(f), Pong));
  }

  /** Answering a PING keeps everything. */
  lemma PongGood(s: State, t: State, c: nat)
    requires Good(s) && Sound(t) && HeadReady(s, c) && HeadReady(t, c) && s.conns[c].role == Down == t.conns[c].role
             && c == t.cur
    requires s.conns[c].parser.hdr.opcode == OP_PING
    requires t.clean ==> s.clean && Open(s, c) && Delivered(s, t, c, Raw(PongFor(Head(s, c))))
    ensures Good(Ponged(t, c, Head(s, c)))
  {
    var f := Head(s, c);
    ConsumedSound(t, c, None);
    NotedSound(Consumed(t, c, None), c, PongFor(f), Pong);
    if t.clean { PongStreams(s, t, c); }
  }

  lemma PongOthers(s: State, t: State, c: nat)
    requires ConnsOk(s) && PongGiven(s, t, c)
    ensures var z := Ponged(t, c, Head(s, c));
            && z.cfg == s.cfg && |z.conns| == |s.conns| == |z.hist| && SameWiring(t, z)
            && forall x :: 0 <= x < |s.conns| && x !in {c} ==> z.conns[x] == s.conns[x] && z.hist[x] == s.hist[x]
  {}

  lemma PongConns(s: State, t: State, c: nat)
    requires ConnsOk(s) && PendingOk(s) && PongGiven(s, t, c)
    ensures ConnsOk(Ponged(t, c, Head(s, c)))
  {
    PongBooks(s, t, c);
    PongOthers(s, t, c);
    ConnsExcept(s, Ponged(t, c, Head(s, c)), {c});
  }

  lemma PongRoutes(s: State, t: State, c: nat)
    requires RoutesOk(s) && ConnsOk(s) && PongGiven(s, t, c)
    ensures RoutesOk(Ponged(t, c, Head(s, c)))
  {
    var z := Ponged(t, c, Head(s, c));
    PongOthers(s, t, c);
    DeliveredWiring(s, t, c, Raw(PongFor(Head(s, c))));
    WiringTrans(s, t, z);
    assert z.hist[c].dest == s.hist[c].dest + [None];
    WiringRoutes(s, z);
  }

  lemma PongStreams(s: State, t: State, c: nat)
    requires TableOk(s) && Streams(s) && PendingOk(s) && PongGiven(s, t, c) && Open(s, c)
    ensures Streams(Ponged(t, c, Head(s, c)))
  {
    PongConns(s, t, c);
    PongExchange(s, t, c);
    PongOthers(s, t, c);
    PongRoutes(s, t, c);
    FinishStreams(s, t, Ponged(t, c, Head(s, c)), c, Raw(PongFor(Head(s, c))));
  }

  // ---- Passing a frame on ----

  ghost function Forwarded(t: State, u: nat, d: nat, f: Frame): State
    requires HeadReady(t, u) && d < |t.hist|
  {
    Noted(Consumed(t, u, Some(d)), d, f, From(u))
  }

  /** A frame may go from a client to its upstream if it is DATA, and from an upstream to a client. */
  ghost predicate MayPass(s: State, u: nat, d: nat) {
    && HeadReady(s, u) && d < |s.conns| && u != d
    && (s.conns[u].role == Down ==>
          s.conns[u].parser.hdr.opcode == OP_DATA && (s.conns[d].role == Up || s.conns[d].role == Connecting))
    && (s.conns[u].role != Down ==> s.conns[u].role == Up && s.conns[d].role == Down && u == s.cur)
  }

  ghost predicate PassGiven(s: State, t: State, u: nat, d: nat) {
    && MayPass(s, u, d) && d < |s.hist| && Delivered(s, t, d, Raw(Head(s, u)))
    && (s.conns[u].role == Down ==> s.hist[d].origin == Some(u))
    && (s.conns[u].role != Down ==> s.hist[u].origin == Some(d))
  }

  lemma ConsumedBooks(k: Conn, h: Hist, k': Conn, h': Hist, d: Option<nat>, n: nat, maxPayload: uint32)
    requires BooksOk(k, h, n, maxPayload) && k.ring.Live? && k.parser.haveHdr
             && |k.ring.data| >= k.parser.hdr.payloadLen
    requires k' == k.(ring := Live(k.ring.slot, k.ring.data[k.parser.hdr.payloadLen..]),
             parser := ParserState(false, k.parser.hdr), hasPending := false)
    requires h' == h.(consumed := h.consumed + [HeadFrame(k.parser, k.ring.data)], dest := h.dest + [d])
    requires d.Some? ==> d.value < n
    requires k.role == Down ==> k.parser.hdr.opcode != OP_PING && (d.Some? ==> k.parser.hdr.opcode == OP_DATA)
    requires (k.role == Up || k.role == Connecting) && d.Some? ==> d == h.origin
    ensures BooksOk(k', h', n, maxPayload)
  {
    OutputConsumed(k, h, k', h', HeadFrame(k.parser, k.ring.data));
    InputConsumed(k, h, k', h', d, maxPayload);
  }

  lemma ForwardSource(s: State, t: State, u: nat, d: nat)
    requires ConnsOk(s) && PassGiven(s, t, u, d)
    ensures var z := Forwarded(t, u, d, Head(s, u)); BooksOk(z.conns[u], z.hist[u], |s.conns|, s.cfg.maxPayload)
  {
    hide BooksOk;
    var z := Forwarded(t, u, d, Head(s, u));
    ConsumedBooks(s.conns[u], s.hist[u], z.conns[u], z.hist[u], Some(d), |s.conns|, s.cfg.maxPayload);
  }

  lemma NotedBooks(k: Conn, h: Hist, k': Conn, h': Hist, f: Frame, src: Source, n: nat, maxPayload: uint32)
    requires BooksOk(k, h, n, maxPayload) && f.Valid(MAX_PAYLOAD_HARD_CAP)
    requires k' == k.(writeRemain := k'.writeRemain) && h' == h.(accepted := h'.accepted, out := h.out + [Sent(f, src)])
    requires h'.accepted + k'.writeRemain == h.accepted + k.writeRemain + Raw(f)
    requires src.From? && src.id < n
    requires k.role == Up || k.role == Connecting ==> src == From(h.origin.value) && f.hdr.opcode == OP_DATA
    ensures BooksOk(k', h', n, maxPayload)
  {
    OutputNoted(k, h, k', h', f, src);
  }

  lemma ForwardTarget(s: State, t: State, u: nat, d: nat)
    requires ConnsOk(s) && PendingOk(s) && PassGiven(s, t, u, d)
    ensures var z := Forwarded(t, u, d, Head(s, u)); BooksOk(z.conns[d], z.hist[d], |s.conns|, s.cfg.maxPayload)
  {
    var z := Forwarded(t, u, d, Head(s, u));
    HeadValid(s, u);
    ForwardOrigin(s, t, u, d);
    hide BooksOk;
    NotedBooks(s.conns[d], s.hist[d], z.conns[d], z.hist[d], Head(s, u), From(u), |s.conns|, s.cfg.maxPayload);
  }

  lemma ForwardOrigin(s: State, t: State, u: nat, d: nat)
    requires ConnsOk(s) && PassGiven(s, t, u, d)
    ensures s.conns[d].role == Up || s.conns[d].role == Connecting ==>
            s.hist[d].origin == Some(u) && Head(s, u).hdr.opcode == OP_DATA
  {}

  lemma ForwardExchange(s: State, t: State, u: nat, d: nat)
    requires ConnsOk(s) && ExchangeOk(s.hist) && PassGiven(s, t, u, d)
    ensures ExchangeOk(Forwarded(t, u, d, Head(s, u)).hist)
  {
    BookLengths(s, u);
    AcceptedExchange(s.hist, d, t.hist[d].accepted);
    ExchangeForwarded(t.hist, u, d, Head(s, u));
  }

  lemma ForwardSameWiring(s: State, t: State, u: nat, d: nat)
    requires PassGiven(s, t, u, d) && ConnsOk(s)
    ensures var z := Forwarded(t, u, d, Head(s, u));
            z.cfg == s.cfg && |z.conns| == |s.conns| == |z.hist| && SameWiring(t, z)
  {
    hide SameWiring;
    SameWiringForwarded(t, u, d, Head(s, u));
  }

  lemma SameWiringForwarded(t: State, u: nat, d: nat, f: Frame)
    requires HeadReady(t, u) && d < |t.hist|
    ensures SameWiring(t, Forwarded(t, u, d, f))
  {}

  lemma ForwardOther(s: State, t: State, u: nat, d: nat, x: int)
    requires PassGiven(s, t, u, d) && ConnsOk(s) && 0 <= x < |s.conns| && x !in {u, d}
    ensures var z := Forwarded(t, u, d, Head(s, u));
            |z.conns| == |s.conns| == |z.hist| && z.conns[x] == s.conns[x] && z.hist[x] == s.hist[x]
  {
    assert t.conns[x] == s.conns[x] && t.hist[x] == s.hist[x];
    hide PassGiven, ConnsOk;
    ForwardedOther(t, u, d, Head(s, u), x);
  }

  lemma ForwardedOther(t: State, u: nat, d: nat, f: Frame, x: int)
    requires HeadReady(t, u) && d < |t.hist| && 0 <= x < |t.conns| && x != u && x != d
    ensures var z := Forwarded(t, u, d, f);
            |z.conns| == |t.conns| == |z.hist| && z.conns[x] == t.conns[x] && z.hist[x] == t.hist[x]
  {}

  lemma ForwardOthers(s: State, t: State, u: nat, d: nat)
    requires ConnsOk(s) && PassGiven(s, t, u, d)
    ensures var z := Forwarded(t, u, d, Head(s, u));
            && |z.conns| == |s.conns| == |z.hist|
            && forall x :: 0 <= x < |s.conns| && x !in {u, d} ==> z.conns[x] == s.conns[x] && z.hist[x] == s.hist[x]
  {
    var z := Forwarded(t, u, d, Head(s, u));
    hide PassGiven, ConnsOk, Forwarded;
    ForwardSizes(s, t, u, d);
    forall x | 0 <= x < |s.conns| && x !in {u, d} ensures z.conns[x] == s.conns[x] && z.hist[x] == s.hist[x] {
      ForwardOther(s, t, u, d, x);
    }
  }

  lemma ForwardSizes(s: State, t: State, u: nat, d: nat)
    requires ConnsOk(s) && PassGiven(s, t, u, d)
    ensures var z := Forwarded(t, u, d, Head(s, u)); |z.conns| == |s.conns| == |z.hist| == |s.hist|
  {}

  /** Passing a complete frame from u to d, byte for byte, keeps everything. */
  lemma ForwardGood(s: State, t: State, u: nat, d: nat)
    requires Good(s) && Sound(t) && MayPass(s, u, d) && HeadReady(t, u) && d < |t.hist|
    requires t.conns[u].role == s.conns[u].role && t.cur == s.cur == u
    requires t.clean ==> s.clean && Open(s, d) && PassGiven(s, t, u, d)
    ensures Good(Forwarded(t, u, d, Head(s, u)))
  {
    var f := Head(s, u);
    ConsumedSound(t, u, Some(d));
    NotedSound(Consumed(t, u, Some(d)), d, f, From(u));
    if t.clean { ForwardStreams(s, t, u, d); }
  }

  lemma ForwardConns(s: State, t: State, u: nat, d: nat)
    requires ConnsOk(s) && PendingOk(s) && PassGiven(s, t, u, d)
    ensures ConnsOk(Forwarded(t, u, d, Head(s, u)))
  {
    hide BooksOk, ConnsOk, SameWiring;
    ForwardSource(s, t, u, d);
    ForwardTarget(s, t, u, d);
    ForwardOthers(s, t, u, d);
    ForwardSameWiring(s, t, u, d);
    ConnsExcept(s, Forwarded(t, u, d, Head(s, u)), {u, d});
  }

  /** The only new destination is d, of u's frame. */
  lemma ForwardRoutes(s: State, t: State, u: nat, d: nat)
    requires RoutesOk(s) && ConnsOk(s) && PassGiven(s, t, u, d)
    ensures RoutesOk(Forwarded(t, u, d, Head(s, u)))
  {
    var z := Forwarded(t, u, d, Head(s, u));
    ForwardSameWiring(s, t, u, d);
    DeliveredWiring(s, t, d, Raw(Head(s, u)));
    WiringTrans(s, t, z);
    ForwardOthers(s, t, u, d);
    ForwardDests(s, t, u, d);
    hide PassGiven, Forwarded, ConnsOk;
    RoutesExtend(s, z, u, d);
  }

  lemma ForwardDests(s: State, t: State, u: nat, d: nat)
    requires ConnsOk(s) && PassGiven(s, t, u, d)
    ensures var z := Forwarded(t, u, d, Head(s, u));
            && |z.hist| == |s.hist| == |s.conns| && z.hist[u].dest == s.hist[u].dest + [Some(d)]
            && z.hist[d].dest == s.hist[d].dest
            && u < |s.conns| && d < |s.conns| && (!IsUpstream(s.conns[u]) ==> IsUpstream(s.conns[d]))
  {}

  lemma RoutesExtend(s: State, z: State, u: nat, d: nat)
    requires RoutesOk(s) && SameWiring(s, z) && u < |s.conns| && d < |s.conns|
    requires z.hist[u].dest == s.hist[u].dest + [Some(d)] && z.hist[d].dest == s.hist[d].dest
    requires forall x :: 0 <= x < |s.conns| && x !in {u, d} ==> z.hist[x] == s.hist[x]
    requires !IsUpstream(s.conns[u]) ==> IsUpstream(s.conns[d])
    ensures RoutesOk(z)
  {}

  lemma ForwardStreams(s: State, t: State, u: nat, d: nat)
    requires TableOk(s) && Streams(s) && PendingOk(s) && PassGiven(s, t, u, d) && Open(s, d)
    ensures Streams(Forwarded(t, u, d, Head(s, u)))
  {
    ForwardConns(s, t, u, d);
    ForwardExchange(s, t, u, d);
    ForwardOthers(s, t, u, d);
    ForwardSameWiring(s, t, u, d);
    ForwardRoutes(s, t, u, d);
    FinishStreams(s, t, Forwarded(t, u, d, Head(s, u)), d, Raw(Head(s, u)));
  }

  // ---- Receiving and parsing ----

  /** Changing what was received changes no exchange. */
  lemma ExchangeReceived(hist: seq<Hist>, c: nat, r: seq<byte>)
    requires ExchangeOk(hist) && c < |hist|
    ensures ExchangeOk(hist[c := hist[c].(received := r)])
  {
    var hist' := hist[c := hist[c].(received := r)];
    forall u: nat, d: nat | u < |hist'| && d < |hist'| && |hist'[u].dest| == |hist'[u].consumed|
      ensures FramesFrom(hist'[d].out, u) == FramesTo(hist'[u].consumed, hist'[u].dest, d) {
      assert FramesFrom(hist[d].out, u) == FramesTo(hist[u].consumed, hist[u].dest, d);
    }
  }

  lemma ReceivedBooks(s: State, c: nat, chunk: seq<byte>)
    requires ConnsOk(s) && c < |s.conns| && s.conns[c].ring.Live?
    ensures var z := Received(s, c, chunk); BooksOk(z.conns[c], z.hist[c], |s.conns|, s.cfg.maxPayload)
  {
    var k, h := s.conns[c], s.hist[c];
    assert BooksOk(k, h, |s.conns|, s.cfg.maxPayload);
    TracksReceive(h.received, h.consumed, k.parser, k.ring.data, Limit(s.cfg.maxPayload), chunk);
    TracksPrefix(h.received + chunk, h.consumed, k.parser, k.ring.data + chunk, Limit(s.cfg.maxPayload));
  }

  /** Bytes that fit the ring keep everything. */
  lemma ReceivedGood(s: State, c: nat, chunk: seq<byte>)
    requires Good(s) && IsLive(s, c) && |s.conns[c].ring.data| + |chunk| < s.cfg.cap && c == s.cur
    ensures Good(Received(s, c, chunk))
  {
    var z := Received(s, c, chunk);
    TotalSame(s.hist, c, z.hist[c]);
    assert PendingConnOk(s.conns[c], s.cfg.maxPayload);
    LocalSound(s, c, z.conns[c], z.hist);
    if s.clean {
      ReceivedBooks(s, c, chunk);
      ExchangeReceived(s.hist, c, z.hist[c].received);
      LocalStreams(s, c, z.conns[c], z.hist[c]);
    }
  }

  lemma ParsedBooks(s: State, c: nat)
    requires ConnsOk(s) && c < |s.conns| && s.conns[c].ring.Live?
    ensures BooksOk(Parsed1(s, c).conns[c], s.hist[c], |s.conns|, s.cfg.maxPayload)
  {
    var k, h := s.conns[c], s.hist[c];
    assert BooksOk(k, h, |s.conns|, s.cfg.maxPayload);
    TracksNext(h.received, h.consumed, k.parser, k.ring.data, Limit(s.cfg.maxPayload));
  }

  /** A connection changed in place, its history untouched. */
  lemma ConnGood(s: State, c: nat, k: Conn)
    requires Good(s) && c < |s.conns| && SamePlace(s.conns[c], k, s.cfg.cap)
    requires PendingConnOk(k, s.cfg.maxPayload) && Quiet(k, c == s.cur, s.cfg)
    requires k.writeRemain == s.conns[c].writeRemain && (c == s.cur || RestKept(s, c, k))
    requires s.clean ==> BooksOk(k, s.hist[c], |s.conns|, s.cfg.maxPayload)
    ensures Good(s.(conns := s.conns[c := k]))
  {
    SameHist(s, c);
    LocalSound(s, c, k, s.hist);
    if s.clean { LocalStreams(s, c, k, s.hist[c]); }
    SameState(s, s.conns[c := k]);
  }

  lemma SameHist(s: State, c: nat)
    requires c < |s.hist|
    ensures s.hist[c := s.hist[c]] == s.hist
  {}

  lemma SameState(s: State, conns: seq<Conn>)
    ensures s.(conns := conns, hist := s.hist) == s.(conns := conns)
  {}

  /** A Next step on a connection with nothing pending keeps everything. */
  lemma ParsedGood(s: State, c: nat)
    requires Good(s) && IsLive(s, c) && !s.conns[c].hasPending && c == s.cur
    ensures Good(Parsed1(s, c))
  {
    ParsedShape(s, c);
    if s.clean { ParsedBooks(s, c); }
    hide Sound, Streams, Parsed1, PendingConnOk, SamePlace, Quiet, BooksOk;
    ConnGood(s, c, Parsed1(s, c).conns[c]);
  }

  lemma ParsedShape(s: State, c: nat)
    requires Good(s) && IsLive(s, c) && !s.conns[c].hasPending && c == s.cur
    ensures var k := Parsed1(s, c).conns[c];
            && Parsed1(s, c) == s.(conns := s.conns[c := k]) && SamePlace(s.conns[c], k, s.cfg.cap)
            && PendingConnOk(k, s.cfg.maxPayload) && Quiet(k, true, s.cfg) && k.writeRemain == s.conns[c].writeRemain
  {
    ParsedRoom(s, c);
    hide Good;
    ParsedConn(s.conns[c], s.cfg);
  }

  lemma ParsedRoom(s: State, c: nat)
    requires Good(s) && IsLive(s, c)
    ensures PendingConnOk(s.conns[c], s.cfg.maxPayload) && |s.conns[c].ring.data| < s.cfg.cap
    ensures Quiet(s.conns[c], true, s.cfg)
  {}

  /** The connection as one Next step leaves it. */
  lemma ParsedConn(k: Conn, cfg: Config)
    requires k.ring.Live? && |k.ring.data| < cfg.cap && !k.hasPending && PendingConnOk(k, cfg.maxPayload)
    ensures var step := NextOn(k.parser, k.ring.data, Limit(cfg.maxPayload));
            var k' := k.(ring := Live(k.ring.slot, k.ring.data[step.dropped..]), parser := step.state);
            SamePlace(k, k', cfg.cap) && PendingConnOk(k', cfg.maxPayload)
  {}

  // ---- Flags ----

  lemma FlagBooks(s: State, c: nat, paused: bool, hasPending: bool)
    requires ConnsOk(s) && c < |s.conns|
    ensures BooksOk(s.conns[c].(paused := paused, hasPending := hasPending), s.hist[c], |s.conns|, s.cfg.maxPayload)
  {
    assert BooksOk(s.conns[c], s.hist[c], |s.conns|, s.cfg.maxPayload);
  }

  /** The connection with other flags. */
  lemma FlagsGood(s: State, c: nat, paused: bool, hasPending: bool)
    requires Good(s) && c < |s.conns|
    requires s.conns[c].role == Down || !Tuned(s.cfg) || !s.conns[c].ring.Live? || !paused
    requires hasPending ==> s.conns[c].hasPending
    requires c == s.cur || !s.clean || !Open(s, c)
    ensures Good(s.(conns := s.conns[c := s.conns[c].(paused := paused, hasPending := hasPending)]))
  {
    assert PendingConnOk(s.conns[c], s.cfg.maxPayload);
    assert IsLive(s, c) <==> s.conns[c].ring.Live?;
    if s.clean { FlagBooks(s, c, paused, hasPending); }
    ConnGood(s, c, s.conns[c].(paused := paused, hasPending := hasPending));
  }

  /** Whose turn it is may change when the connection read so far is drained. */
  lemma TurnGood(s: State, cur: int)
    requires Good(s)
    requires IsLive(s, s.cur) && s.conns[s.cur].role != Down && Tuned(s.cfg) ==>
             Drained(s.conns[s.cur], s.cfg.maxPayload)
    requires Served(s)
    ensures Good(s.(cur := cur))
  {
    var t := s.(cur := cur);
    TurnPause(s, cur);
    SameWriting(s, t);
    forall x ensures Open(t, x) <==> Open(s, x) {}
    forall x ensures IsLive(t, x) <==> IsLive(s, x) {}
    forall e: nat ensures Ups(t, e) == Ups(s, e) {}
    assert TableOk(t) && RingsOk(t) && ActiveOk(t);
    assert PeersOk(t) by { LocalTurn(s, cur); }
    if s.clean { assert ConnsOk(t) && PairsOk(t) && RoutesOk(t); }
  }

  /** The client that was served has been left stuck or restful. */
  ghost predicate Served(s: State) {
    Watched(s) && Open(s, s.cur) && s.conns[s.cur].role == Down ==>
      if s.cur in s.stuck then Stuck(s.conns[s.cur]) else Restful(s.conns, s.conns[s.cur], s.cfg)
  }

  lemma TurnPause(s: State, cur: int)
    requires PauseOk(s) && Served(s)
    ensures PauseOk(s.(cur := cur))
  {
    var t := s.(cur := cur);
    if Watched(t) {
      forall x | Open(t, x) && t.conns[x].role == Down && x != t.cur
        ensures if x in t.stuck then Stuck(t.conns[x]) else Restful(t.conns, t.conns[x], t.cfg) {
        assert Open(s, x);
      }
    }
  }

  /** The connection being served may be marked as stuck. */
  lemma StickGood(s: State)
    requires Good(s) && 0 <= s.cur < |s.conns|
    ensures Good(s.(stuck := s.stuck + {s.cur}))
  {
    var t := s.(stuck := s.stuck + {s.cur});
    forall x ensures Open(t, x) <==> Open(s, x) {}
    forall x ensures IsLive(t, x) <==> IsLive(s, x) {}
    forall e: nat ensures Ups(t, e) == Ups(s, e) {}
    assert TableOk(t) && RingsOk(t) && ActiveOk(t);
    assert PeersOk(t) by { StickPeers(s, t); }
    assert PauseOk(t) by { StickPause(s, t); }
    assert Wakeful(t) by { SameWriting(s, t); }
    if s.clean { assert ConnsOk(t) && PairsOk(t) && RoutesOk(t); }
  }

  lemma StickPeers(s: State, t: State)
    requires PeersOk(s) && t == s.(stuck := t.stuck)
    ensures PeersOk(t)
  {
    forall x ensures Open(t, x) <==> Open(s, x) {}
  }

  lemma StickPause(s: State, t: State)
    requires PauseOk(s) && 0 <= s.cur < |s.conns| && t == s.(stuck := s.stuck + {s.cur})
    ensures PauseOk(t)
  {
    if Watched(t) {
      forall x | Open(t, x) && t.conns[x].role == Down && x != t.cur
        ensures if x in t.stuck then Stuck(t.conns[x]) else Restful(t.conns, t.conns[x], t.cfg) {
        assert Open(s, x);
      }
    }
  }

  lemma LocalTurn(s: State, cur: int)
    requires PeersOk(s)
    ensures PeersOk(s.(cur := cur))
  {
    forall x ensures Open(s.(cur := cur), x) <==> Open(s, x) {}
  }

  /** Once a write has failed for good, only the structure is kept. */
  lemma SpoiledGood(s: State)
    requires Sound(s)
    ensures Good(s.(clean := false))
  {
    SameWriting(s, s.(clean := false));
    SameShapeSound(s, s.(clean := false));
  }

  lemma FlaggedGood(s: State, panicked: bool, closeSeen: bool)
    requires Good(s) && (s.closeSeen ==> closeSeen)
    ensures Good(s.(panicked := panicked, closeSeen := closeSeen))
  {
    FlaggedSound(s, panicked, closeSeen);
    if s.clean { FlaggedStreams(s, panicked, closeSeen); }
    hide Sound, Streams;
  }

  lemma FlaggedSound(s: State, panicked: bool, closeSeen: bool)
    requires Sound(s) && (s.closeSeen ==> closeSeen)
    ensures Sound(s.(panicked := panicked, closeSeen := closeSeen))
  {
    var t := s.(panicked := panicked, closeSeen := closeSeen);
    SameWriting(s, t);
    SameShapeSound(s, t);
  }

  lemma FlaggedStreams(s: State, panicked: bool, closeSeen: bool)
    requires Streams(s)
    ensures Streams(s.(panicked := panicked, closeSeen := closeSeen))
  {
    var t := s.(panicked := panicked, closeSeen := closeSeen);
    forall x ensures Open(t, x) <==> Open(s, x) {}
    assert ConnsOk(t) && PairsOk(t) && RoutesOk(t);
  }

  // ---- Writing ----

  /** c's socket accepted bytes. */
  ghost function Took(s: State, c: nat, bytes: seq<byte>): State
    requires c < |s.hist|
  {
    s.(hist := s.hist[c := s.hist[c].(accepted := s.hist[c].accepted + bytes)], outBytes := s.outBytes + |bytes|)
  }

  /** c's socket accepted bytes; w still waits. */
  ghost function Wrote(s: State, c: nat, bytes: seq<byte>, w: seq<byte>): State
    requires c < |s.conns| == |s.hist|
  {
    Took(s, c, bytes).(conns := s.conns[c := s.conns[c].(writeRemain := w)])
  }

  /**
   * Once n of c's waiting bytes are written, nothing waits for c any more; but its descriptor belongs to
   * another connection, which needs write readiness.
   */
  predicate Robs(s: State, c: nat, n: nat) {
    && c < |s.conns| && n == |s.conns[c].writeRemain| && s.conns[c].fd in s.tab
    && var d := s.tab[s.conns[c].fd];
       d != c && d < |s.conns| && Needs(s.conns[d])
  }

  lemma WroteSound(s: State, c: nat, bytes: seq<byte>, w: seq<byte>)
    requires Sound(s) && c < |s.conns| && (s.clean ==> Open(s, c))
    requires w != [] ==> s.conns[c].writeRemain != []
    ensures Sound(Wrote(s, c, bytes, w)) && Shrinks(s, Wrote(s, c, bytes, w), {c})
  {
    WroteShrinks(s, c, bytes, w);
    TotalUpdate(s.hist, c, s.hist[c].(accepted := s.hist[c].accepted + bytes));
    WroteWakeful(s, c, bytes, w);
    hide Wakeful, PauseOk, Shrinks;
    SameShapeSound(s, Wrote(s, c, bytes, w));
  }

  lemma WroteShrinks(s: State, c: nat, bytes: seq<byte>, w: seq<byte>)
    requires c < |s.conns| == |s.hist|
    ensures Shrinks(s, Wrote(s, c, bytes, w), {c})
  {}

  lemma WroteWakeful(s: State, c: nat, bytes: seq<byte>, w: seq<byte>)
    requires Wakeful(s) && c < |s.conns| == |s.hist| && (s.clean ==> Open(s, c))
    requires w != [] ==> s.conns[c].writeRemain != []
    ensures Wakeful(Wrote(s, c, bytes, w))
  {
    SameWriting(s, Wrote(s, c, bytes, w));
  }

  /** Bytes were queued or written out for c, and the interest in its descriptor suits whoever has it. */
  lemma RetunedWakeful(t: State, u: State, c: nat)
    requires Wakeful(t) && c < |t.conns| == |u.conns| && u.tab == t.tab && u.clean == t.clean
    requires (t.robbed ==> u.robbed) && (u.clean ==> !u.robbed)
    requires u.conns == t.conns[c := t.conns[c].(writeRemain := u.conns[c].writeRemain)]
    requires u.interest.Keys == t.interest.Keys
    requires forall fd :: fd in t.interest && fd != t.conns[c].fd ==> u.interest[fd] == t.interest[fd]
    requires t.conns[c].fd in t.interest ==>
               u.interest[t.conns[c].fd] == t.interest[t.conns[c].fd] || u.interest[t.conns[c].fd].read
    requires !u.robbed ==>
               forall x :: Open(u, x) && u.conns[x].fd == t.conns[c].fd && Needs(u.conns[x]) ==>
                 t.conns[c].fd in u.interest ==> u.interest[t.conns[c].fd].write
    ensures Wakeful(u)
  {
    forall x | Open(u, x) && u.conns[x].role != Connecting
      ensures u.conns[x].fd in u.interest && u.interest[u.conns[x].fd].read {
      assert Open(t, x);
    }
    if !u.robbed {
      forall x | Open(u, x)
        ensures Woken(u, x) {
        assert Open(t, x);
      }
    }
  }

  // ---- A new connection ----

  lemma AdoptedTable(s: State, fd: int, role: Role, ep: Option<nat>, origin: Option<nat>)
    requires TableOk(s) && fd !in s.tab && role != Listen
    ensures var t := Adopted(s, fd, role, ep, origin);
            && TableOk(t)
            && (forall x :: Open(t, x) <==> Open(s, x) || x == |s.conns|)
            && (forall x :: IsLive(t, x) <==> IsLive(s, x) || x == |s.conns|)
            && |t.tab| == |s.tab| + 1
  {
    var t := Adopted(s, fd, role, ep, origin);
    assert t.tab.Keys == s.tab.Keys + {fd};
    assert |t.tab| == |t.tab.Keys| && |s.tab| == |s.tab.Keys|;
  }

  lemma AdoptedRings(s: State, fd: int, role: Role, ep: Option<nat>, origin: Option<nat>)
    requires TableOk(s) && RingsOk(s) && fd !in s.tab && role != Listen
    ensures RingsOk(Adopted(s, fd, role, ep, origin))
  {
    AdoptedTable(s, fd, role, ep, origin);
    GetTakesOneSlot(s.slab);
  }

  lemma AdoptedCount(s: State, fd: int, role: Role, ep: Option<nat>, origin: Option<nat>, e: nat)
    requires TableOk(s) && ActiveOk(s) && fd !in s.tab && role != Listen && (ep.Some? <==> role != Down)
    ensures var t := Adopted(s, fd, role, ep, origin); ActiveOf(t.active, e) == |Ups(t, e)|
  {
    AdoptedUps(s, fd, role, ep, origin, e);
    assert ActiveOf(s.active, e) == |Ups(s, e)|;
    hide Ups, ActiveOk;
  }

  lemma AdoptedUps(s: State, fd: int, role: Role, ep: Option<nat>, origin: Option<nat>, e: nat)
    requires TableOk(s) && fd !in s.tab && role != Listen
    ensures |s.conns| !in Ups(s, e)
    ensures Ups(Adopted(s, fd, role, ep, origin), e) ==
            Ups(s, e) + (if role == Up && ep == Some(e) then {|s.conns|} else {})
  {
    AdoptedTable(s, fd, role, ep, origin);
    hide Adopted;
  }

  lemma AdoptedPeers(s: State, fd: int, role: Role, ep: Option<nat>, origin: Option<nat>)
    requires TableOk(s) && PeersOk(s) && fd !in s.tab && role != Listen
    ensures PeersOk(Adopted(s, fd, role, ep, origin))
  {
    AdoptedTable(s, fd, role, ep, origin);
  }

  lemma AdoptedQuiet(s: State, fd: int, role: Role, ep: Option<nat>, origin: Option<nat>)
    requires TableOk(s) && PendingOk(s) && QuietOk(s) && fd !in s.tab && role != Listen
    ensures var t := Adopted(s, fd, role, ep, origin); PendingOk(t) && QuietOk(t)
  {
    AdoptedTable(s, fd, role, ep, origin);
  }

  lemma AdoptedSound(s: State, fd: int, role: Role, ep: Option<nat>, origin: Option<nat>)
    requires Sound(s) && fd !in s.tab && role != Listen && (ep.Some? <==> role != Down)
    ensures Sound(Adopted(s, fd, role, ep, origin))
  {
    var t := Adopted(s, fd, role, ep, origin);
    AdoptedTable(s, fd, role, ep, origin);
    AdoptedRings(s, fd, role, ep, origin);
    AdoptedPeers(s, fd, role, ep, origin);
    AdoptedQuiet(s, fd, role, ep, origin);
    AdoptedActive(s, fd, role, ep, origin);
    AdoptedTotal(s.hist, t.hist[|s.hist|]);
    AdoptedPause(s, fd, role, ep, origin);
    AdoptedWakeful(s, fd, role, ep, origin);
    hide Wakeful, PauseOk;
    hide TableOk, RingsOk, ActiveOk, PeersOk, PendingOk, QuietOk;
  }

  lemma AdoptedPause(s: State, fd: int, role: Role, ep: Option<nat>, origin: Option<nat>)
    requires TableOk(s) && PeersOk(s) && PauseOk(s) && fd !in s.tab && role != Listen
    ensures PauseOk(Adopted(s, fd, role, ep, origin))
  {
    var t := Adopted(s, fd, role, ep, origin);
    AdoptedTable(s, fd, role, ep, origin);
    if Watched(t) {
      forall x | Open(t, x) && t.conns[x].role == Down && x != t.cur
        ensures if x in t.stuck then Stuck(t.conns[x]) else Restful(t.conns, t.conns[x], t.cfg) {
        assert x < |s.conns| ==> Open(s, x);
      }
    }
  }

  lemma AdoptedWakeful(s: State, fd: int, role: Role, ep: Option<nat>, origin: Option<nat>)
    requires TableOk(s) && Wakeful(s) && fd !in s.tab && role != Listen
    ensures Wakeful(Adopted(s, fd, role, ep, origin))
  {
    AdoptedPoller(s, fd, role, ep, origin);
    if !s.robbed { AdoptedWakeup(s, fd, role, ep, origin); }
  }

  /** A connection is read from the first, and a connect under way is waited for. */
  lemma AdoptedPoller(s: State, fd: int, role: Role, ep: Option<nat>, origin: Option<nat>)
    requires TableOk(s) && PollerOk(s) && fd !in s.tab && role != Listen
    ensures PollerOk(Adopted(s, fd, role, ep, origin))
  {
    AdoptedTable(s, fd, role, ep, origin);
    var t := Adopted(s, fd, role, ep, origin);
    assert t.interest.Keys == s.interest.Keys + {fd} && t.tab.Keys == s.tab.Keys + {fd};
  }

  lemma AdoptedTotal(hist: seq<Hist>, h: Hist)
    requires h.accepted == []
    ensures TotalAccepted(hist + [h]) == TotalAccepted(hist)
  {
    assert (hist + [h])[..|hist|] == hist;
  }

  lemma AdoptedActive(s: State, fd: int, role: Role, ep: Option<nat>, origin: Option<nat>)
    requires TableOk(s) && ActiveOk(s) && fd !in s.tab && role != Listen && (ep.Some? <==> role != Down)
    ensures ActiveOk(Adopted(s, fd, role, ep, origin))
  {
    var t := Adopted(s, fd, role, ep, origin);
    forall e: nat ensures ActiveOf(t.active, e) == |Ups(t, e)| { AdoptedCount(s, fd, role, ep, origin, e); }
  }

  lemma {:induction false} NothingFrom(out: seq<Sent>, u: nat)
    requires forall i :: 0 <= i < |out| && out[i].source.From? ==> out[i].source.id < u
    ensures FramesFrom(out, u) == []
  {
    if out != [] { NothingFrom(out[..|out| - 1], u); }
  }

  lemma {:induction false} NothingTo(consumed: seq<Frame>, dest: seq<Option<nat>>, d: nat)
    requires |dest| == |consumed|
    requires forall i :: 0 <= i < |dest| && dest[i].Some? ==> dest[i].value < d
    ensures FramesTo(consumed, dest, d) == []
  {
    if consumed != [] { NothingTo(consumed[..|consumed| - 1], dest[..|dest| - 1], d); }
  }

  lemma AdoptedExchange(s: State, h: Hist)
    requires ConnsOk(s) && ExchangeOk(s.hist) && h == NO_HIST.(origin := h.origin)
    ensures ExchangeOk(s.hist + [h])
  {
    var hist', n := s.hist + [h], |s.hist|;
    forall u: nat, d: nat | u < |hist'| && d < |hist'| && |hist'[u].dest| == |hist'[u].consumed|
      ensures FramesFrom(hist'[d].out, u) == FramesTo(hist'[u].consumed, hist'[u].dest, d) {
      if u < n && d < n {
        assert FramesFrom(s.hist[d].out, u) == FramesTo(s.hist[u].consumed, s.hist[u].dest, d);
      } else {
        if d < n {
          assert BooksOk(s.conns[d], s.hist[d], n, s.cfg.maxPayload);
          NothingFrom(s.hist[d].out, u);
        }
        if u < n {
          assert BooksOk(s.conns[u], s.hist[u], n, s.cfg.maxPayload);
          NothingTo(s.hist[u].consumed, s.hist[u].dest, d);
        }
      }
    }
  }

  lemma AdoptedBooks(s: State, fd: int, role: Role, ep: Option<nat>, origin: Option<nat>)
    requires ConnsOk(s) && role != Listen && (role != Down ==> origin.Some?)
    ensures ConnsOk(Adopted(s, fd, role, ep, origin))
  {
    var t := Adopted(s, fd, role, ep, origin);
    var n := |s.conns|;
    forall x | 0 <= x < |t.conns| ensures BooksOk(t.conns[x], t.hist[x], |t.conns|, t.cfg.maxPayload) {
      if x < n { assert BooksOk(s.conns[x], s.hist[x], n, s.cfg.maxPayload); }
    }
  }

  lemma AdoptedStreams(s: State, fd: int, role: Role, ep: Option<nat>, origin: Option<nat>)
    requires TableOk(s) && Streams(s) && fd !in s.tab && role != Listen && (role != Down ==> origin.Some?)
    ensures Streams(Adopted(s, fd, role, ep, origin))
  {
    var t := Adopted(s, fd, role, ep, origin);
    AdoptedTable(s, fd, role, ep, origin);
    AdoptedBooks(s, fd, role, ep, origin);
    AdoptedExchange(s, NO_HIST.(origin := origin));
    AdoptedPairs(s, fd, role, ep, origin);
    AdoptedRoutes(s, fd, role, ep, origin);
    hide ConnsOk, PairsOk, RoutesOk;
  }

  lemma AdoptedRoutes(s: State, fd: int, role: Role, ep: Option<nat>, origin: Option<nat>)
    requires RoutesOk(s)
    ensures RoutesOk(Adopted(s, fd, role, ep, origin))
  {}

  lemma AdoptedPairs(s: State, fd: int, role: Role, ep: Option<nat>, origin: Option<nat>)
    requires TableOk(s) && PairsOk(s) && fd !in s.tab && role != Listen
    ensures PairsOk(Adopted(s, fd, role, ep, origin))
  {
    AdoptedTable(s, fd, role, ep, origin);
  }

  lemma AdoptedWakeup(s: State, fd: int, role: Role, ep: Option<nat>, origin: Option<nat>)
    requires TableOk(s) && WakeupOk(s) && fd !in s.tab && role != Listen
    ensures WakeupOk(Adopted(s, fd, role, ep, origin))
  {
    AdoptedTable(s, fd, role, ep, origin);
  }

  /** Taking a connection on a free descriptor into the table keeps everything. */
  lemma AdoptedGood(s: State, fd: int, role: Role, ep: Option<nat>, origin: Option<nat>)
    requires Good(s) && fd !in s.tab && role != Listen && (ep.Some? <==> role != Down)
    requires role != Down ==> origin.Some?
    ensures Good(Adopted(s, fd, role, ep, origin))
  {
    AdoptedSound(s, fd, role, ep, origin);
    if s.clean { AdoptedStreams(s, fd, role, ep, origin); }
  }

  // ---- Pairing a client with its new upstream ----

  ghost predicate CanPair(s: State, c: nat, u: nat, hdr: Header) {
    && c < |s.conns| == |s.hist| && u < |s.conns| && c != u
    && s.conns[c].role == Down && (s.conns[u].role == Up || s.conns[u].role == Connecting)
    && s.conns[c].peer == None && s.conns[u].peer == None && Open(s, u) && c == s.cur
    && hdr == s.conns[c].parser.hdr && hdr.opcode == OP_DATA
    && (s.conns[c].ring.Live? ==> HeadReady(s, c))
  }

  lemma PairedShape(s: State, c: nat, u: nat, hdr: Header)
    requires CanPair(s, c, u, hdr)
    ensures var t := Paired(s, c, u, hdr);
            && |t.conns| == |s.conns|
            && t.conns[c] == s.conns[c].(peer := Some(u), pending := hdr, hasPending := true)
            && t.conns[u] == s.conns[u].(peer := Some(c))
            && (forall x :: 0 <= x < |s.conns| && x != c && x != u ==> t.conns[x] == s.conns[x])
            && (forall x :: Open(t, x) <==> Open(s, x))
            && (forall x :: IsLive(t, x) <==> IsLive(s, x))
  {}

  lemma PairedSound(s: State, c: nat, u: nat, hdr: Header)
    requires Sound(s) && CanPair(s, c, u, hdr)
    ensures Sound(Paired(s, c, u, hdr))
  {
    var t := Paired(s, c, u, hdr);
    PairedShape(s, c, u, hdr);
    forall e: nat ensures Ups(t, e) == Ups(s, e) {}
    assert TableOk(t) && ActiveOk(t);
    assert RingsOk(t) by { PairedRings(s, c, u, hdr); }
    assert PeersOk(t) by { PairedPeers(s, c, u, hdr); }
    assert PendingOk(t) && QuietOk(t) by { PairedQuiet(s, c, u, hdr); }
    assert PauseOk(t) && Wakeful(t) by { PairedPause(s, c, u, hdr); }
  }

  lemma PairedPause(s: State, c: nat, u: nat, hdr: Header)
    requires PauseOk(s) && Wakeful(s) && CanPair(s, c, u, hdr)
    ensures PauseOk(Paired(s, c, u, hdr)) && Wakeful(Paired(s, c, u, hdr))
  {
    PairedShape(s, c, u, hdr);
    var t := Paired(s, c, u, hdr);
    assert t == s.(conns := t.conns);
    hide Paired;
    SameWriting(s, t);
  }

  lemma PairedRings(s: State, c: nat, u: nat, hdr: Header)
    requires RingsOk(s) && CanPair(s, c, u, hdr)
    ensures RingsOk(Paired(s, c, u, hdr))
  {
    PairedShape(s, c, u, hdr);
  }

  lemma PairedPeers(s: State, c: nat, u: nat, hdr: Header)
    requires PeersOk(s) && CanPair(s, c, u, hdr)
    ensures PeersOk(Paired(s, c, u, hdr))
  {
    PairedShape(s, c, u, hdr);
  }

  lemma PairedQuiet(s: State, c: nat, u: nat, hdr: Header)
    requires PendingOk(s) && QuietOk(s) && CanPair(s, c, u, hdr)
    ensures PendingOk(Paired(s, c, u, hdr)) && QuietOk(Paired(s, c, u, hdr))
  {
    PairedShape(s, c, u, hdr);
    var t := Paired(s, c, u, hdr);
    forall x | 0 <= x < |t.conns| ensures PendingConnOk(t.conns[x], t.cfg.maxPayload) {
      assert PendingConnOk(s.conns[x], s.cfg.maxPayload);
    }
    forall x | IsLive(t, x) ensures t.conns[x].ring == s.conns[x].ring && t.conns[x].parser == s.conns[x].parser {}
  }

  lemma PairedStreams(s: State, c: nat, u: nat, hdr: Header)
    requires Streams(s) && CanPair(s, c, u, hdr) && Open(s, c) && s.hist[u].origin == Some(c)
    ensures Streams(Paired(s, c, u, hdr))
  {
    PairedBooks(s, c, u, hdr);
    PairedPairs(s, c, u, hdr);
    assert Paired(s, c, u, hdr).hist == s.hist;
    hide ConnsOk, PairsOk, RoutesOk, Paired;
  }

  lemma PairedPairs(s: State, c: nat, u: nat, hdr: Header)
    requires PairsOk(s) && RoutesOk(s) && CanPair(s, c, u, hdr) && Open(s, c) && s.hist[u].origin == Some(c)
    ensures PairsOk(Paired(s, c, u, hdr)) && RoutesOk(Paired(s, c, u, hdr))
  {
    PairedShape(s, c, u, hdr);
  }

  lemma PairedBooks(s: State, c: nat, u: nat, hdr: Header)
    requires ConnsOk(s) && CanPair(s, c, u, hdr)
    ensures ConnsOk(Paired(s, c, u, hdr))
  {
    PairedShape(s, c, u, hdr);
    var t := Paired(s, c, u, hdr);
    assert t.cfg == s.cfg && t.hist == s.hist;
    hide BooksOk, Paired, CanPair;
    BooksShrink(s.conns[c], t.conns[c], s.hist[c], |s.conns|, s.cfg.maxPayload);
    BooksShrink(s.conns[u], t.conns[u], s.hist[u], |s.conns|, s.cfg.maxPayload);
    ConnsExcept(s, t, {c, u});
  }

  /** Joining a client whose frame is complete with a new, unpaired upstream keeps everything. */
  lemma PairedGood(s: State, c: nat, u: nat, hdr: Header)
    requires Good(s) && CanPair(s, c, u, hdr)
    requires s.clean ==> Open(s, c) && s.hist[u].origin == Some(c)
    ensures Good(Paired(s, c, u, hdr))
  {
    PairedSound(s, c, u, hdr);
    if s.clean { PairedStreams(s, c, u, hdr); }
  }

  // ---- A connect completes ----

  lemma EstablishedShape(s: State, c: nat)
    requires Open(s, c) && s.conns[c].role == Connecting && s.conns[c].ep.Some?
    ensures var t := Established(s, c);
            && |t.conns| == |s.conns| && t.conns[c] == s.conns[c].(role := Up)
            && (forall x :: 0 <= x < |s.conns| && x != c ==> t.conns[x] == s.conns[x])
            && (forall x :: Open(t, x) <==> Open(s, x))
            && (forall x :: IsLive(t, x) <==> IsLive(s, x))
  {}

  lemma EstablishedCount(s: State, c: nat, e: nat)
    requires ActiveOk(s) && Open(s, c) && s.conns[c].role == Connecting && s.conns[c].ep.Some?
    ensures var t := Established(s, c); ActiveOf(t.active, e) == |Ups(t, e)|
  {
    EstablishedUps(s, c, e);
    assert ActiveOf(s.active, e) == |Ups(s, e)|;
    hide Ups, ActiveOk;
  }

  lemma EstablishedUps(s: State, c: nat, e: nat)
    requires Open(s, c) && s.conns[c].role == Connecting && s.conns[c].ep.Some?
    ensures c !in Ups(s, e) && Ups(Established(s, c), e) == Ups(s, e) + (if s.conns[c].ep == Some(e) then {c} else {})
  {
    EstablishedShape(s, c);
    hide Established;
  }

  lemma EstablishedSound(s: State, c: nat)
    requires Sound(s) && Open(s, c) && s.conns[c].role == Connecting && s.conns[c].ep.Some? && Attended(s, c)
    ensures Sound(Established(s, c))
  {
    EstablishedPause(s, c);
    EstablishedWakeful(s, c);
    var t := Established(s, c);
    EstablishedShape(s, c);
    forall e: nat ensures ActiveOf(t.active, e) == |Ups(t, e)| { EstablishedCount(s, c, e); }
    assert TableOk(t) && ActiveOk(t);
    assert RingsOk(t) && PeersOk(t) by { EstablishedRings(s, c); }
    assert PendingOk(t) && QuietOk(t) by { EstablishedQuiet(s, c); }
  }

  /** The client whose frame is pending for c, if any, is being served. */
  ghost predicate Attended(s: State, c: nat) {
    c < |s.conns| && s.conns[c].peer.Some? && s.conns[c].peer.value < |s.conns| ==>
      s.conns[c].peer.value == s.cur || !s.conns[s.conns[c].peer.value].hasPending
  }

  lemma EstablishedPause(s: State, c: nat)
    requires PauseOk(s) && PeersOk(s) && Open(s, c) && s.conns[c].role == Connecting && s.conns[c].ep.Some?
             && Attended(s, c)
    ensures PauseOk(Established(s, c))
  {
    EstablishedShape(s, c);
    var t := Established(s, c);
    if Watched(t) {
      forall x | Open(t, x) && t.conns[x].role == Down && x != t.cur
        ensures if x in t.stuck then Stuck(t.conns[x]) else Restful(t.conns, t.conns[x], t.cfg) {
        assert Open(s, x);
      }
    }
  }

  lemma EstablishedWakeful(s: State, c: nat)
    requires Wakeful(s) && Open(s, c) && s.conns[c].role == Connecting && s.conns[c].ep.Some?
    ensures Wakeful(Established(s, c))
  {
    EstablishedPoller(s, c);
    if !s.robbed { EstablishedWakeup(s, c); }
  }

  lemma EstablishedPoller(s: State, c: nat)
    requires PollerOk(s) && Open(s, c) && s.conns[c].role == Connecting && s.conns[c].ep.Some?
    ensures PollerOk(Established(s, c))
  {
    var t := Established(s, c);
    assert t.interest.Keys == s.interest.Keys;
    forall x | Open(t, x) && t.conns[x].role != Connecting
      ensures t.conns[x].fd in t.interest && t.interest[t.conns[x].fd].read {
      assert Open(s, x);
    }
  }

  lemma EstablishedRings(s: State, c: nat)
    requires RingsOk(s) && PeersOk(s) && Open(s, c) && s.conns[c].role == Connecting && s.conns[c].ep.Some?
    ensures RingsOk(Established(s, c)) && PeersOk(Established(s, c))
  {
    EstablishedShape(s, c);
  }

  lemma EstablishedQuiet(s: State, c: nat)
    requires PendingOk(s) && QuietOk(s) && Open(s, c) && s.conns[c].role == Connecting && s.conns[c].ep.Some?
    ensures PendingOk(Established(s, c)) && QuietOk(Established(s, c))
  {
    EstablishedShape(s, c);
    var t := Established(s, c);
    forall x | 0 <= x < |t.conns| ensures PendingConnOk(t.conns[x], t.cfg.maxPayload) {
      assert PendingConnOk(s.conns[x], s.cfg.maxPayload);
    }
    forall x | IsLive(t, x) ensures t.conns[x].ring == s.conns[x].ring && t.conns[x].parser == s.conns[x].parser {}
  }

  lemma EstablishedStreams(s: State, c: nat)
    requires Streams(s) && TableOk(s) && Open(s, c) && s.conns[c].role == Connecting && s.conns[c].ep.Some?
    ensures Streams(Established(s, c))
  {
    EstablishedShape(s, c);
    EstablishedBooks(s, c);
    EstablishedPairs(s, c);
    hide BooksOk, ConnsOk, RoutesOk, ExchangeOk, PairsOk;
  }

  lemma EstablishedPairs(s: State, c: nat)
    requires PairsOk(s) && RoutesOk(s) && Open(s, c) && s.conns[c].role == Connecting && s.conns[c].ep.Some?
    ensures PairsOk(Established(s, c)) && RoutesOk(Established(s, c))
  {
    EstablishedShape(s, c);
  }

  lemma EstablishedBooks(s: State, c: nat)
    requires ConnsOk(s) && c < |s.conns| && s.conns[c].role == Connecting && s.conns[c].ep.Some?
    ensures ConnsOk(Established(s, c))
  {
    var t := Established(s, c);
    assert BooksOk(s.conns[c], s.hist[c], |s.conns|, s.cfg.maxPayload);
    assert BooksOk(t.conns[c], t.hist[c], |t.conns|, t.cfg.maxPayload);
    hide BooksOk;
    ConnsExcept(s, t, {c});
  }

  lemma EstablishedWakeup(s: State, c: nat)
    requires WakeupOk(s) && Open(s, c) && s.conns[c].role == Connecting && s.conns[c].ep.Some?
    ensures WakeupOk(Established(s, c))
  {
    var t := Established(s, c);
    forall x | Open(t, x)
      ensures Woken(t, x) {
      assert Open(s, x);
    }
  }

  /** A connecting upstream becoming established keeps everything. */
  lemma EstablishedGood(s: State, c: nat)
    requires Good(s) && Open(s, c) && s.conns[c].role == Connecting && s.conns[c].ep.Some? && Attended(s, c)
    ensures Good(Established(s, c))
  {
    EstablishedSound(s, c);
    if s.clean { EstablishedStreams(s, c); }
  }

  // ---- Deliveries ----

  lemma ShrinksTrans(s: State, t: State, u: State, xs: set<nat>)
    requires Shrinks(s, t, xs) && Shrinks(t, u, xs)
    ensures Shrinks(s, u, xs)
  {}

  lemma ShrinksMore(s: State, t: State, xs: set<nat>, ys: set<nat>)
    requires Shrinks(s, t, xs) && xs <= ys
    ensures Shrinks(s, t, ys)
  {}

  lemma DeliveredTrans(s: State, t: State, u: State, c: nat, a: seq<byte>, b: seq<byte>)
    requires Delivered(s, t, c, a) && Delivered(t, u, c, b)
    ensures Delivered(s, u, c, a + b)
  {
    assert s.hist[c].accepted + s.conns[c].writeRemain + a + b == s.hist[c].accepted + s.conns[c].writeRemain + (a + b);
  }

  lemma DeliveredShrinks(s: State, t: State, c: nat, bytes: seq<byte>)
    requires Delivered(s, t, c, bytes)
    ensures Shrinks(s, t, {c})
  {}

  lemma FlushedBooks(s: State, t: State, c: nat)
    requires ConnsOk(s) && Delivered(s, t, c, [])
    ensures BooksOk(t.conns[c], t.hist[c], |s.conns|, s.cfg.maxPayload)
  {
    assert BooksOk(s.conns[c], s.hist[c], |s.conns|, s.cfg.maxPayload);
  }

  /** Writing out waiting bytes keeps the streams. */
  lemma FlushedStreams(s: State, t: State, c: nat)
    requires TableOk(s) && Streams(s) && Delivered(s, t, c, []) && Open(s, c)
    ensures Streams(t)
  {
    FlushedBooks(s, t, c);
    ConnsExcept(s, t, {c});
    hide BooksOk;
    AcceptedExchange(s.hist, c, t.hist[c].accepted);
    DeliveredWiring(s, t, c, []);
    WiringRoutes(s, t);
    FinishStreams(s, t, t, c, []);
  }

  // ---- A slot taken and given back at once ----

  lemma BouncedGood(s: State)
    requires Good(s)
    ensures Good(s.(slab := s.slab.AfterGet().AfterPut(s.slab.Next())))
  {
    var t := s.(slab := s.slab.AfterGet().AfterPut(s.slab.Next()));
    GetTakesOneSlot(s.slab);
    PutReturnsOneSlot(s.slab.AfterGet(), s.slab.Next());
    forall x ensures Open(t, x) <==> Open(s, x) {}
    forall x ensures IsLive(t, x) <==> IsLive(s, x) {}
    forall e: nat ensures Ups(t, e) == Ups(s, e) {}
    assert TableOk(t) && ActiveOk(t) && RingsOk(t) && PendingOk(t) && QuietOk(t);
    assert PeersOk(t) by { BouncedPeers(s, t); }
    SameWriting(s, t);
    assert PauseOk(t) by { BouncedPause(s, t); }
    if s.clean { assert ConnsOk(t) && PairsOk(t) && RoutesOk(t); }
  }

  lemma BouncedPause(s: State, t: State)
    requires PauseOk(s) && t == s.(slab := t.slab)
    ensures PauseOk(t)
  {
    if Watched(t) {
      forall x | Open(t, x) && t.conns[x].role == Down && x != t.cur
        ensures if x in t.stuck then Stuck(t.conns[x]) else Restful(t.conns, t.conns[x], t.cfg) {
        assert Open(s, x);
      }
    }
  }

  lemma BouncedPeers(s: State, t: State)
    requires PeersOk(s) && t == s.(slab := t.slab)
    ensures PeersOk(t)
  {
    forall x ensures Open(t, x) <==> Open(s, x) {}
  }
}
