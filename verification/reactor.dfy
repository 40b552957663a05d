// The reactor's connection layer (internal/reactor/reactor.go): writing, teardown, parsing,
// dispatch, pairing, and whole runs.
module Reactors {
  import opened Bits
  import opened Protocol
  import opened Parsing
  import opened Buffer
  import opened ReactorState
  import opened ReactorLemmas
  import opened ReactorSteps

  /** How a system call ended: well, with EAGAIN, or with another error. */
  datatype Errno = Fine | Again | Hard

  /**
   * What the environment answers to one question: a system call's error, how many bytes a
   * write takes, the bytes a read gives, a descriptor, whether a connect is under way,
   * and the endpoint a route picks. Each call uses the parts that concern it.
   */
  datatype Answer = Answer(err: Errno, n: nat, data: seq<byte>, fd: int, progress: bool, choice: Choice)

  /** What wakes the reactor: readiness of a descriptor, or the sweep that found some connections idle. */
  datatype Happening =
    | Ready(fd: int, read: bool, write: bool, error: bool, hangup: bool)
    | Sweep(idle: set<nat>)

  const NO_ANSWER := Answer(Again, 0, [], -1, false, NoRoute)

  /** The answers from position at on. */
  function Left(script: seq<Answer>, at: nat): seq<Answer> {
    if at <= |script| then script[at..] else []
  }

  /** One turn of a loop: the state it starts from, and how much of the script has been used up. */
  datatype Turn = Turn(view: State, at: nat)

  /** All that the turns of a loop reading c were offered. */
  function Gathered(turns: seq<Turn>, c: nat, script: seq<Answer>): seq<byte> {
    if turns == [] then []
    else
      var last := turns[|turns| - 1];
      Gathered(turns[..|turns| - 1], c, script) + Offered(last.view, c, Left(script, last.at))
  }

  /** Turn after turn, what was offered was read, from s at position start up to v at position at. */
  ghost predicate ReadSoFar(turns: seq<Turn>, s: State, start: nat, v: State, at: nat, c: nat, script: seq<Answer>) {
    if turns == [] then v == s && at == start
    else
      var last := turns[|turns| - 1];
      && ReadSoFar(turns[..|turns| - 1], s, start, last.view, last.at, c, script)
      && last.at < at && Fetched(last.view, v, c, Offered(last.view, c, Left(script, last.at)))
  }

  /** The loop that read c is over: c was closed or panicked over, or may not be read, or its socket has no more. */
  ghost predicate ReadTurns(turns: seq<Turn>, s: State, start: nat, t: State, c: nat, script: seq<Answer>) {
    turns != [] &&
    var last := turns[|turns| - 1];
    && ReadSoFar(turns[..|turns| - 1], s, start, last.view, last.at, c, script)
    && Fetched(last.view, t, c, Offered(last.view, c, Left(script, last.at)))
    && (!t.panicked && IsLive(t, c) ==> Stops(last.view, c, Left(script, last.at)))
  }

  /** One Next step and what it led to: the loop goes on, stops with nothing complete left, or is done with c. */
  ghost predicate OneWorked(t: State, v: State, c: nat, stop: bool, done: bool) {
    && c < |t.conns| && c < |v.conns| && SameSource(t, v, c)
    && (!stop ==> !done && Working(v, c) && (v.conns[c].hasPending || Load(v.conns[c]) < Load(t.conns[c])))
    && (done ==> stop && Ended(v) && (v.panicked || (AtRest(v, c) && !IsLive(v, c))))
    && (stop && !done ==> Reading(v, c) && Settled(v, c))
    && (Doomed(t, c) ==> !stop && Fell(t, v, c))
    && (t.conns[c].ring == Nil ==> stop && v == t.(panicked := true))
  }

  /** Some such steps. */
  ghost predicate Worked(s: State, v: State, c: nat, stop: bool, done: bool) {
    && c < |v.conns| && SameSource(s, v, c)
    && (!stop ==> !done && Working(v, c))
    && (stop && done ==> Ended(v) && (v.panicked || (AtRest(v, c) && !IsLive(v, c))))
    && (stop && !done ==> Reading(v, c) && Settled(v, c))
    && (Doomed(s, c) ==> if stop then Perished(s, v) else v == s || Fell(s, v, c))
  }

  lemma WorkedNothing(s: State, c: nat)
    requires Working(s, c) && c < |s.conns|
    ensures Worked(s, s, c, false, false)
  {
    WorkingSource(s, c);
  }

  lemma WorkedMore(s: State, t: State, c: nat, done: bool)
    requires Worked(s, t, c, false, done)
    ensures Working(t, c) && !done
  {}

  lemma WorkedOnce(s: State, t: State, v: State, c: nat, stop: bool, done: bool)
    requires Worked(s, t, c, false, false) && OneWorked(t, v, c, stop, done) && c < |t.conns| && !t.conns[c].hasPending
    ensures c < |v.conns| && Worked(s, v, c, stop, done)
    ensures !stop ==> v.conns[c].hasPending || Load(v.conns[c]) < Load(t.conns[c])
  {
    hide Good, Ended, Reading, Settled, Working, AtRest, SameSource, Doomed, Fell;
    SameSourceTrans(s, t, v, c);
    if Doomed(s, c) {
      if t == s { DoomedParses(s, c); } else { DoomedFalls(s, t, c); }
    }
  }

  lemma WorkedOff(s: State, v: State, c: nat, stop: bool, done: bool)
    requires Worked(s, v, c, stop, done) && c < |v.conns| && (stop || v.conns[c].hasPending)
    ensures SameSource(s, v, c)
    ensures done ==> Ended(v) && (v.panicked || (AtRest(v, c) && !IsLive(v, c)))
    ensures !done ==> Reading(v, c) && Settled(v, c) && !v.panicked
    ensures Doomed(s, c) ==> Perished(s, v)
  {
    hide Good, Ended, Settled, Working, AtRest, SameSource, Doomed, Fell;
    if Doomed(s, c) && !stop {
      if v == s { DoomedParses(s, c); } else { DoomedFalls(s, v, c); }
    }
    if !stop { WorkingPending(v, c); }
  }

  /** The next read gives an unpaired client its CLOSE. */
  ghost predicate Fatal(s: State, c: nat, env: seq<Answer>) {
    && s.clean && Readable(s, c) && |s.conns| == |s.hist| && |s.conns[c].ring.data| < s.cfg.cap
    && env != [] && env[0].err == Fine && env[0].data != []
    && var k := s.conns[c];
       Closing(k.(ring := Live(k.ring.slot, k.ring.data + Room(s, c, env[0].data))), s.cfg)
  }

  lemma NotReadable(s: State, c: nat)
    requires c < |s.conns| && s.conns[c].ring.Live?
    requires |s.conns[c].ring.data| >= s.cfg.high || |s.conns[c].ring.data| == s.cfg.cap - 1
    ensures !Readable(s, c)
  {}

  lemma FatalReceived(s: State, c: nat, env: seq<Answer>)
    requires Fatal(s, c, env)
    ensures Doomed(Received(s, c, Room(s, c, env[0].data)), c)
  {}

  /** c may not be read, or its socket has nothing to give. */
  predicate Stops(s: State, c: nat, env: seq<Answer>) {
    !Readable(s, c) || env == [] || env[0].err != Fine || env[0].data == []
  }

  /** The peer of c has closed its end, or the read failed. */
  predicate Over(s: State, c: nat, env: seq<Answer>) {
    Readable(s, c) && env != [] && (env[0].err == Hard || (env[0].err == Fine && env[0].data == []))
  }

  lemma TurnTaken(turns: seq<Turn>, s: State, start: nat, t: State, pos: nat, v: State, at: nat, c: nat,
      script: seq<Answer>, more: bool)
    requires ReadSoFar(turns, s, start, t, pos, c, script)
    requires Fetched(t, v, c, Offered(t, c, Left(script, pos)))
    requires more ==> pos < at
    requires !more && !v.panicked && IsLive(v, c) ==> Stops(t, c, Left(script, pos))
    ensures var now := turns + [Turn(t, pos)];
            && (more ==> ReadSoFar(now, s, start, v, at, c, script))
            && (!more ==> ReadTurns(now, s, start, v, c, script))
  {
    assert (turns + [Turn(t, pos)])[..|turns|] == turns;
  }

  lemma {:induction false} SoFarGathered(turns: seq<Turn>, s: State, start: nat, v: State, at: nat, c: nat,
      script: seq<Answer>)
    requires ReadSoFar(turns, s, start, v, at, c, script) && turns != []
    ensures Fetched(s, v, c, Gathered(turns, c, script))
    ensures turns[0] == Turn(s, start) && Offered(s, c, Left(script, start)) <= Gathered(turns, c, script)
  {
    var init, last := turns[..|turns| - 1], turns[|turns| - 1];
    if init == [] {
      assert Gathered(turns, c, script) == Offered(last.view, c, Left(script, last.at));
    } else {
      SoFarGathered(init, s, start, last.view, last.at, c, script);
      FetchedTrans(s, last.view, v, c, Gathered(init, c, script), Offered(last.view, c, Left(script, last.at)));
    }
  }

  /** Whose turn it is makes no difference to what is offered and read. */
  lemma LoopTurned(turns: seq<Turn>, s: State, start: nat, t: State, c: nat, script: seq<Answer>)
    requires ReadTurns(turns, s.(cur := c), start, t, c, script)
    ensures Fetched(s, t, c, Gathered(turns, c, script))
    ensures ReadOn(s, t, c, Offered(s, c, Left(script, start)))
  {
    TurnsGathered(turns, s.(cur := c), start, t, c, script);
  }

  lemma FatalTurned(s: State, c: nat, env: seq<Answer>)
    requires Fatal(s, c, env)
    ensures Fatal(s.(cur := c), c, env)
  {
    hide Closing;
  }

  /** What one turn of the loop that reads c leaves. */
  ghost predicate OnceRead(s: State, v: State, c: nat, env: seq<Answer>, calm: bool, more: bool) {
    && c < |s.conns| <= |v.conns| && Fetched(s, v, c, Offered(s, c, env))
    && (!more ==> Ended(v) && (calm && !v.panicked ==> AtRest(v, c)))
    && (!more && Readable(s, c) && !v.panicked && Tuned(s.cfg) && v.conns[c].paused ==> v.conns[c].hasPending)
    && (IsLive(s, c) && !Readable(s, c) ==> !more && v == PausedAt(s, c))
    && (Over(s, c, env) ==> !Open(v, c))
    && (!more && !v.panicked && IsLive(v, c) ==> Stops(s, c, env))
    && (Fatal(s, c, env) ==> !more && Perished(s, v))
  }

  lemma OnceFacts(s: State, v: State, c: nat, env: seq<Answer>, calm: bool, more: bool)
    requires OnceRead(s, v, c, env, calm, more)
    ensures c < |s.conns| <= |v.conns| && Fetched(s, v, c, Offered(s, c, env))
    ensures !more ==> Ended(v) && (calm && !v.panicked ==> AtRest(v, c))
    ensures !more && Readable(s, c) && !v.panicked && Tuned(s.cfg) && v.conns[c].paused ==> v.conns[c].hasPending
    ensures IsLive(s, c) && !Readable(s, c) ==> !more && v == PausedAt(s, c)
    ensures !more && !v.panicked && IsLive(v, c) ==> Stops(s, c, env)
    ensures Fatal(s, c, env) ==> !more && Perished(s, v)
  {}

  lemma OnceIdle(s: State, v: State, c: nat, env: seq<Answer>, calm: bool)
    requires c < |s.conns| && s.conns[c].ring == Nil && v == s.(cur := -1) && Ended(v) && (calm ==> AtRest(v, c))
    requires Fetched(s, v, c, [])
    ensures OnceRead(s, v, c, env, calm, false)
  {
    NothingOffered(s, c, env);
    FetchedSizes(s, v, c, []);
    hide Ended, AtRest, Fetched, Closing, Offered;
  }

  lemma OncePaused(s: State, v: State, c: nat, env: seq<Answer>, calm: bool)
    requires c < |s.conns| && !Readable(s, c) && v == PausedAt(s, c) && Ended(v) && (calm ==> AtRest(v, c))
    requires Fetched(s, v, c, [])
    ensures OnceRead(s, v, c, env, calm, false)
  {
    NothingOffered(s, c, env);
    FetchedSizes(s, v, c, []);
    hide Ended, AtRest, Fetched, Closing, Offered;
  }

  lemma OnceAgain(s: State, v: State, c: nat, env: seq<Answer>, calm: bool)
    requires Readable(s, c) && (env == [] || env[0].err == Again) && v == s.(cur := -1) && !s.conns[c].paused
    requires Ended(v) && (calm ==> AtRest(v, c)) && Fetched(s, v, c, [])
    ensures OnceRead(s, v, c, env, calm, false)
  {
    NothingOffered(s, c, env);
    FetchedSizes(s, v, c, []);
    hide Ended, AtRest, Fetched, Closing, Offered;
  }

  lemma OnceClosed(s: State, v: State, c: nat, env: seq<Answer>, calm: bool)
    requires v.cfg == s.cfg && Readable(s, c) && env != [] && (env[0].err == Hard
             || (env[0].err == Fine && env[0].data == []))
    requires Ended(v) && c < |v.conns| && AtRest(v, c) && !Open(v, c) && !IsLive(v, c) && Fetched(s, v, c, [])
    ensures OnceRead(s, v, c, env, calm, false)
  {
    AtRestWaits(v, c);
    NothingOffered(s, c, env);
    FetchedSizes(s, v, c, []);
    hide Ended, AtRest, Fetched, Closing, Offered;
  }

  lemma OnceTaken(s: State, v: State, c: nat, env: seq<Answer>, calm: bool, more: bool)
    requires v.cfg == s.cfg && Readable(s, c) && |s.conns[c].ring.data| < s.cfg.cap && env != [] && env[0].err == Fine
             && env[0].data != []
    requires !more ==> Ended(v) && c < |v.conns| && (v.panicked || (AtRest(v, c) && !IsLive(v, c)))
    requires Fetched(s, v, c, Room(s, c, env[0].data))
    requires Doomed(Received(s, c, Room(s, c, env[0].data)), c) ==> !more && Perished(s, v)
    ensures OnceRead(s, v, c, env, calm, more)
  {
    SomeOffered(s, c, env);
    FetchedSizes(s, v, c, Room(s, c, env[0].data));
    if Fatal(s, c, env) { FatalReceived(s, c, env); }
    if !more && !v.panicked { AtRestWaits(v, c); }
    hide Ended, AtRest, Fetched, Doomed, Offered, Room, Received, Fatal;
  }

  lemma FetchedSizes(s: State, v: State, c: nat, chunk: seq<byte>)
    requires Fetched(s, v, c, chunk)
    ensures c < |s.conns| <= |v.conns|
  {}

  lemma SoFarAtFirst(s: State, at: nat, c: nat, script: seq<Answer>)
    ensures ReadSoFar([], s, at, s, at, c, script)
  {}

  lemma FetchedTrans(s: State, t: State, v: State, c: nat, a: seq<byte>, b: seq<byte>)
    requires Fetched(s, t, c, a) && Fetched(t, v, c, b)
    ensures Fetched(s, v, c, a + b)
  {
    assert s.hist[c].received + a + b == s.hist[c].received + (a + b);
  }

  /** What c received in the loop is what its turns were offered. */
  lemma TurnsGathered(turns: seq<Turn>, s: State, start: nat, t: State, c: nat, script: seq<Answer>)
    requires ReadTurns(turns, s, start, t, c, script)
    ensures Fetched(s, t, c, Gathered(turns, c, script)) && turns[0] == Turn(s, start)
    ensures ReadOn(s, t, c, Offered(s, c, Left(script, start)))
  {
    var last := turns[|turns| - 1];
    assert ReadSoFar(turns, s, start, t, last.at + 1, c, script);
    SoFarGathered(turns, s, start, t, last.at + 1, c, script);
  }

  /** The bytes the next read gives c: those on offer that fit, if c may be read at all. */
  function Offered(s: State, c: nat, env: seq<Answer>): seq<byte> {
    if Readable(s, c) && env != [] && env[0].err == Fine then Room(s, c, env[0].data) else []
  }

  lemma NothingOffered(s: State, c: nat, env: seq<Answer>)
    requires !Readable(s, c) || env == [] || env[0].err != Fine || env[0].data == []
    ensures Offered(s, c, env) == []
  {}

  lemma SomeOffered(s: State, c: nat, env: seq<Answer>)
    requires Readable(s, c) && env != [] && env[0].err == Fine
    ensures Offered(s, c, env) == Room(s, c, env[0].data)
  {}

  /** How many of total bytes the next write takes. */
  function Takes(env: seq<Answer>, total: nat): (n: nat)
    ensures n <= total && (Failing(env) ==> n == 0)
  {
    if env == [] || env[0].err != Fine || env[0].n < 0 then 0
    else if env[0].n > total then total else env[0].n
  }

  /** How connect and the poller answer. */
  function DialOf(env: seq<Answer>, tab: map<int, nat>): Dial {
    if NoGuest(env, tab) then DialFailed
    else if |env| == 1 || env[1].err != Fine then AdoptFailed
    else Dialed(env[0].fd, env[0].progress)
  }

  lemma DialCases(env: seq<Answer>, tab: map<int, nat>)
    ensures NoGuest(env, tab) ==> DialOf(env, tab) == DialFailed
    ensures !NoGuest(env, tab) ==>
              DialOf(env, tab) == if env[1..] == [] || env[1..][0].err != Fine then AdoptFailed
                                  else Dialed(env[0].fd, env[0].progress)
  {}

  /** The client's peer is an established upstream of the endpoint chosen. */
  predicate Reuses(s: State, c: nat, ep: nat) {
    && c < |s.conns| && s.conns[c].peer.Some? && s.conns[c].peer.value < |s.conns|
    && s.conns[s.conns[c].peer.value].ep == Some(ep) && s.conns[s.conns[c].peer.value].role == Up
  }

  /** m is when connect is called: at once, or after the upstream of another endpoint was closed. */
  ghost predicate Dials(s: State, start: nat, c: nat, ep: nat, dial: Dial, m: Turn, script: seq<Answer>) {
    if Reuses(s, c, ep) then dial == Reused
    else
      && dial == DialOf(Left(script, m.at), m.view.tab) && m.at > start && c < |s.conns|
      && if s.conns[c].peer.Some? then Closes(s, m.view, s.conns[c].peer.value) else m == Turn(s, start + 1)
  }

  /** A client whose peer is an established upstream of the endpoint picked keeps it, and the frame goes there. */
  lemma PickedAgain(s: State, start: nat, t: State, c: nat, ep: nat, dial: Dial, m: Turn, script: seq<Answer>,
      news: seq<Report>, p: nat)
    requires Dials(s, start, c, ep, dial, m, script) && Connected(s, t, c, ep, dial, news)
    requires c < |s.conns| && p < |s.conns| && s.conns[c].peer == Some(p)
    requires s.conns[p].ep == Some(ep) && s.conns[p].role == Up
    ensures c < |t.conns| && t.conns[c].peer == Some(p) && news == []
    ensures p < |t.conns| && t.conns[p].role == Up ==> Taken(s, t, c, Some(p)) && LastOn(t, p, Head(s, c), From(c))
  {}

  /** A connect in progress leaves the frame pending, one that is through lets it go at once. */
  lemma ProgressDecides(s: State, t: State, c: nat, ep: nat, fd: int, progress: bool, news: seq<Report>)
    requires Connected(s, t, c, ep, Dialed(fd, progress), news)
    ensures c < |t.conns| && t.conns[c].peer.Some? && t.conns[c].peer.value < |t.conns| && news == []
    ensures var u := t.conns[c].peer.value;
            && t.conns[u].fd == fd && t.conns[u].ep == Some(ep)
            && if progress then t.conns[u].role == Connecting && t.conns[c].hasPending && HeadReady(t, c)
               else t.conns[u].role == Up && Taken(s, t, c, Some(u)) && LastOn(t, u, Head(s, c), From(c))
  {}

  /** accept gives a new descriptor, and the poller takes it. */
  predicate Welcomed(env: seq<Answer>, tab: map<int, nat>) {
    |env| > 1 && env[0].err == Fine && env[0].fd !in tab && env[1].err == Fine
  }

  /** The accepted descriptor became a client, and was read. */
  ghost predicate Greeted(s: State, t: State, env: seq<Answer>)
    requires |env| > 1
  {
    var a := Adopted(s, env[0].fd, Down, None, None);
    ReadOn(a, t, |s.conns|, Offered(a, |s.conns|, env[2..]))
  }

  /** accept gives nothing new. */
  predicate NoGuest(env: seq<Answer>, tab: map<int, nat>) {
    env == [] || env[0].err != Fine || env[0].fd in tab
  }

  /** One accept: nothing came, or the poller refused the descriptor, or it became a client. */
  ghost predicate TookIn(s: State, t: State, env: seq<Answer>) {
    if NoGuest(env, s.tab) then t == s
    else if Welcomed(env, s.tab) then Greeted(s, t, env) && (FatalGuest(s, env) ==> Perished(s, t))
    else t == s.(slab := s.slab.AfterGet().AfterPut(s.slab.Next()))
  }

  /** The descriptor was refused by the poller, or became a client that was read. */
  ghost predicate Admitted(s: State, t: State, fd: int, rest: seq<Answer>) {
    if rest == [] || rest[0].err != Fine then t == s.(slab := s.slab.AfterGet().AfterPut(s.slab.Next()))
    else
      var a := Adopted(s, fd, Down, None, None);
      ReadOn(a, t, |s.conns|, Offered(a, |s.conns|, rest[1..])) && (Fatal(a, |s.conns|, rest[1..]) ==> Perished(s, t))
  }

  /** Accept after accept, from s at position start up to v at position at. */
  ghost predicate GuestsSoFar(turns: seq<Turn>, s: State, start: nat, v: State, at: nat, script: seq<Answer>) {
    if turns == [] then v == s && at == start
    else
      var last := turns[|turns| - 1];
      && GuestsSoFar(turns[..|turns| - 1], s, start, last.view, last.at, script)
      && last.at <= at && TookIn(last.view, v, Left(script, last.at))
  }

  /** All that came were accepted, unless one of them made the reactor panic. */
  ghost predicate AllGuests(turns: seq<Turn>, s: State, start: nat, v: State, at: nat, script: seq<Answer>) {
    && turns != [] && GuestsSoFar(turns, s, start, v, at, script)
    && var last := turns[|turns| - 1];
       v.panicked || NoGuest(Left(script, last.at), last.view.tab)
  }

  lemma NobodySoFar(s: State, at: nat, script: seq<Answer>)
    ensures GuestsSoFar([], s, at, s, at, script)
  {}

  lemma NobodyCame(s: State, env: seq<Answer>)
    ensures NoGuest(env, s.tab) ==> TookIn(s, s, env)
  {}

  lemma FatalTook(s: State, t: State, env: seq<Answer>)
    requires TookIn(s, t, env) && Welcomed(env, s.tab) && FatalGuest(s, env)
    ensures Perished(s, t)
  {}

  lemma GuestTaken(turns: seq<Turn>, s: State, start: nat, t: State, pos: nat, v: State, at: nat, script: seq<Answer>,
      more: bool)
    requires GuestsSoFar(turns, s, start, t, pos, script) && pos <= at && TookIn(t, v, Left(script, pos))
    requires !more ==> v.panicked || NoGuest(Left(script, pos), t.tab)
    ensures var now := turns + [Turn(t, pos)];
            GuestsSoFar(now, s, start, v, at, script) && (!more ==> AllGuests(now, s, start, v, at, script))
  {
    assert (turns + [Turn(t, pos)])[..|turns|] == turns;
  }

  /** The first thing the accepted client sends is CLOSE. */
  ghost predicate FatalGuest(s: State, env: seq<Answer>) {
    |env| > 1 && Fatal(Adopted(s, env[0].fd, Down, None, None), |s.conns|, env[2..])
  }

  /** What Admit does of the answers after the first is what TookIn says of all of them. */
  lemma GuestAdmitted(env: seq<Answer>, rest: seq<Answer>, s: State, t: State)
    requires !NoGuest(env, s.tab) && rest == env[1..]
    requires Admitted(s, t, env[0].fd, rest)
    ensures TookIn(s, t, env)
  {
    hide Adopted, ReadOn, Offered, Fatal, Perished;
    if |env| > 1 { assert rest[1..] == env[2..]; }
  }

  /** How a connect under way ends, and what c's endpoint was told. */
  ghost predicate Finishes(s: State, t: State, c: nat, failed: bool, was: seq<Report>, now: seq<Report>) {
    && c < |s.conns| && s.conns[c].ep.Some? && s.stuck <= t.stuck
    && if failed then ConnectFailed(s, t, c) && now == was + [Failure(s.conns[c].ep.value)]
       else ConnectDone(s, t, c) && (!Resuming(s, c) ==> now == was + [Success(s.conns[c].ep.value)])
  }

  lemma FinishesBadly(s: State, t: State, c: nat, was: seq<Report>, now: seq<Report>)
    requires c < |s.conns| && s.conns[c].ep.Some? && s.stuck <= t.stuck
    requires ConnectFailed(s, t, c) && now == was + [Failure(s.conns[c].ep.value)]
    ensures Finishes(s, t, c, true, was, now)
  {}

  lemma FinishesWell(s: State, t: State, c: nat, was: seq<Report>, now: seq<Report>)
    requires c < |s.conns| && s.conns[c].ep.Some? && s.stuck <= t.stuck
    requires ConnectDone(s, t, c) && (!Resuming(s, c) ==> now == was + [Success(s.conns[c].ep.value)])
    ensures Finishes(s, t, c, false, was, now)
  {}

  /** The client of c is paused with a frame pending for c. */
  predicate Resuming(s: State, c: nat) {
    && c < |s.conns| && s.conns[c].peer.Some? && s.conns[c].peer.value < |s.conns|
    && s.conns[s.conns[c].peer.value].hasPending && s.conns[s.conns[c].peer.value].paused
  }

  /** A write would answer EAGAIN, as it also does when the script is used up. */
  predicate Blocking(env: seq<Answer>) {
    env == [] || env[0].err == Again
  }

  /** What waits for c is written, as far as the socket takes it; then c is read. mid is the state in between. */
  ghost predicate Moved(s: State, mid: State, t: State, c: nat, read: bool, write: bool, env: seq<Answer>) {
    && c < |s.conns|
    && var flushes := write && s.conns[c].writeRemain != [];
       && (!flushes ==> mid == s)
       && (flushes && !Failing(env) ==> Drew(s, mid, c, Takes(env, |s.conns[c].writeRemain|)))
       && (!read ==> t == mid)
       && (read && !s.conns[c].paused && !(flushes && Failing(env)) ==>
             ReadOn(mid, t, c, Offered(mid, c, if flushes then Later(env) else env)))
       && (read && s.conns[c].paused && !(flushes && Failing(env)) ==> t == mid)
  }

  lemma DrewPaused(s: State, mid: State, c: nat, n: nat)
    requires Drew(s, mid, c, n)
    ensures |mid.conns| == |s.conns| && mid.conns[c].paused == s.conns[c].paused
  {}

  /** The answers that are left after one question. */
  function Later(env: seq<Answer>): seq<Answer> {
    if env == [] then [] else env[1..]
  }

  predicate Failing(env: seq<Answer>) {
    env != [] && env[0].err == Hard
  }

  function ChoiceOf(env: seq<Answer>): Choice {
    if env == [] then NO_ANSWER.choice else env[0].choice
  }

  /** The parts that are not empty. */
  method NonEmpty(parts: seq<seq<byte>>) returns (iov: seq<seq<byte>>)
    ensures Flat(iov) == Flat(parts)
    ensures iov == [] ==> Flat(parts) == []
  {
    iov := [];
    var i := 0;
    while i < |parts|
      invariant 0 <= i <= |parts|
      invariant Flat(iov) == Flat(parts[..i])
    {
      FlatPrefix(parts, i);
      if |parts[i]| > 0 {
        FlatSnoc(iov, parts[i]);
        iov := iov + [parts[i]];
      }
      i := i + 1;
    }
    assert parts[..|parts|] == parts;
  }

  /**
   * The bytes of iov beyond the first n, gathered as stashRemainder does. A count below zero, as a write that
   * answers EAGAIN returns it, makes the first slice start below zero, which panics: lost.
   */
  method Beyond(iov: seq<seq<byte>>, n: int) returns (rest: seq<byte>, lost: bool)
    ensures lost <==> n < 0 && iov != []
    ensures 0 <= n <= |Flat(iov)| ==> rest == Flat(iov)[n..]
    ensures n < 0 || n > |Flat(iov)| ==> rest == []
  {
    rest, lost := [], n < 0 && |iov| > 0;
    if n < 0 { return; }
    var skip := n;
    var i := 0;
    while i < |iov|
      invariant 0 <= i <= |iov| && skip >= 0
      invariant skip > 0 ==> |Flat(iov[..i])| + skip == n && rest == []
      invariant skip == 0 ==> n <= |Flat(iov[..i])| && rest == Flat(iov[..i])[n..]
    {
      FlatPrefix(iov, i);
      var p := iov[i];
      if skip >= |p| {
        skip := skip - |p|;
      } else {
        rest := rest + p[skip..];
        skip := 0;
      }
      i := i + 1;
    }
    assert iov[..|iov|] == iov;
  }

  method AnyOf<T>(s: set<T>) returns (x: T)
    requires s != {}
    ensures x in s
  {
    x :| x in s;
  }

  /** Field by field, t is s without c. */
  lemma UnlinkedFields(s: State, t: State, c: nat, k: Conn)
    requires c < |s.conns| && k == s.conns[c]
    requires t == s.(tab := s.tab - {k.fd}, interest := s.interest - {k.fd},
                     conns := t.conns, stuck := t.stuck, slab := t.slab, active := t.active)
    requires t.stuck == if Forsakes(s, c) then s.stuck + {k.peer.value} else s.stuck
    requires t.slab == if k.ring.Live? then s.slab.AfterPut(k.ring.slot) else s.slab
    requires t.active == if k.ep.Some? && k.role != Connecting
                         then s.active[k.ep.value := ActiveOf(s.active, k.ep.value) - 1] else s.active
    requires t.conns == Unpaired(s.conns[c := k.(peer := None, ring := Nil)], k.peer, c)
    ensures t == Unlinked(s, c)
  {}

  class Reactor {
    const cfg: Config
    var tab: map<int, nat>
    var conns: seq<Conn>
    var slab: SlabState
    var active: map<nat, int>
    var interest: map<int, Interest>
    var outBytes: nat
    var panicked: bool
    const script: seq<Answer>
    var at: nat
    ghost var hist: seq<Hist>
    ghost var clean: bool
    ghost var closeSeen: bool
    var reports: seq<Report>
    ghost var cur: int
    ghost var robbed: bool
    ghost var choked: bool
    ghost var stuck: set<nat>

    ghost function View(): State
      reads this
    {
      State(cfg, tab, conns, slab, active, interest, outBytes, hist, clean, closeSeen, panicked, cur, robbed, choked,
        stuck)
    }

    // ---- The environment ----

    /** The answers still to come. */
    function Env(): seq<Answer>
      reads this`at
    {
      Left(script, at)
    }

    method Ask() returns (a: Answer)
      modifies this`at
      ensures old(Env()) == [] ==> at == old(at) && a == NO_ANSWER
      ensures old(Env()) != [] ==> at == old(at) + 1 && Env() == old(Env())[1..] && a == old(Env())[0]
    {
      if at >= |script| { return NO_ANSWER; }
      a := script[at];
      at := at + 1;
    }

    /** A write of total bytes: how many are taken, and whether it failed for good. */
    method Write(total: nat) returns (n: nat, hard: bool)
      modifies this`at
      ensures n == Takes(old(Env()), total) && hard == Failing(old(Env())) && at >= old(at)
              && Env() == Later(old(Env()))
    {
      var a := Ask();
      hard := a.err == Hard;
      n := if a.err != Fine || a.n < 0 then 0 else if a.n > total then total else a.n;
    }

    /** The poller's Mod; for a descriptor it does not know it changes nothing. */
    method Mod(fd: int, bits: Interest)
      modifies this`interest
      ensures interest == if fd in old(interest) then old(interest)[fd := bits] else old(interest)
    {
      if fd in interest { interest := interest[fd := bits]; }
    }

    /** f is noted as put on d. */
    ghost method Note(d: nat, f: Frame, src: Source)
      requires d < |hist|
      modifies this`hist
      ensures View() == Noted(old(View()), d, f, src)
    {
      hist := hist[d := hist[d].(out := hist[d].out + [Sent(f, src)])];
    }

    // ---- Teardown and writing ----

    method CloseConn(c: nat)
      requires Good(View()) && 0 < c < |conns|
      modifies this
      ensures Closes(old(View()), View(), c) && at >= old(at)
      ensures Parted(old(View()), View(), c)
      ensures reports == old(reports)
      decreases |tab|, 0
    {
      hide Good, Shrinks, Closes, UnlinkedKnown;
      ghost var s := View();
      if conns[c].fd !in tab || tab[conns[c].fd] != c {
        ClosedAlready(s, c);
        return;
      }
      var peer := conns[c].peer;
      UnlinkedGood(s, c);
      UnlinkedFacts(s, c);
      Unlink(c);
      if peer.Some? {
        UnlinkedPeer(s, c);
        ClosePeer(c, peer.value, s);
      } else {
        ClosedAlone(s, c);
      }
    }

    /** Takes c out of the table, gives back its ring, counts its endpoint down, and unpairs it. */
    method Unlink(c: nat)
      requires c < |conns|
      modifies this`conns, this`interest, this`tab, this`slab, this`active, this`stuck
      ensures View() == Unlinked(old(View()), c)
    {
      hide Forsakes, Unlinked, Unpaired, ActiveOf;
      ghost var s := View();
      var k := conns[c];
      Forsake(c);
      conns := conns[c := k.(peer := None, ring := Nil)];
      interest, tab := interest - {k.fd}, tab - {k.fd};
      GiveBack(k.ring);
      CountDown(k);
      Forget(k.peer, c);
      UnlinkedFields(s, View(), c, k);
    }

    method GiveBack(ring: RingView)
      modifies this`slab
      ensures slab == if ring.Live? then old(slab).AfterPut(ring.slot) else old(slab)
    {
      if ring.Live? { slab := slab.AfterPut(ring.slot); }
    }

    method CountDown(k: Conn)
      modifies this`active
      ensures active == if k.ep.Some? && k.role != Connecting
                        then old(active)[k.ep.value := ActiveOf(old(active), k.ep.value) - 1] else old(active)
    {
      if k.ep.Some? && k.role != Connecting {
        active := active[k.ep.value := ActiveOf(active, k.ep.value) - 1];
      }
    }

    /** A client whose frame is pending for c has nobody left to send it to. */
    ghost method Forsake(c: nat)
      requires c < |conns|
      modifies this`stuck
      ensures stuck == if Forsakes(old(View()), c) then old(stuck) + {conns[c].peer.value} else old(stuck)
    {
      if Forsakes(View(), c) { stuck := stuck + {conns[c].peer.value}; }
    }

    /** The peer of c, if it is still paired with c, is so no longer. */
    method Forget(peer: Option<nat>, c: nat)
      modifies this`conns
      ensures conns == Unpaired(old(conns), peer, c)
    {
      if peer.Some? && peer.value < |conns| && conns[peer.value].peer == Some(c) {
        conns := conns[peer.value := conns[peer.value].(peer := None)];
      }
    }

    /** The end of closeConn: a client is told, an upstream is closed too. */
    method ClosePeer(ghost c: nat, p: nat, ghost s: State)
      requires Good(View()) && View() == Unlinked1(s, c) && UnlinkedKnown(s, c)
      requires c < |s.conns| && s.conns[c].peer == Some(p) && 0 < p < |conns| && Open(s, c)
      requires conns[p].role == s.conns[p].role && conns[p].peer == None && (clean ==> Open(View(), p))
      modifies this
      ensures Closes(s, View(), c) && at >= old(at)
      ensures Parted(s, View(), c)
      ensures reports == old(reports)
      decreases |tab|, 6
    {
      hide Good, Shrinks, Closes, UnlinkedKnown, Replies;
      ghost var t := View();
      if conns[p].role == Down {
        ReplyError(p, conns[p].pending, CODE_UPSTREAM_FAIL, Text("upstream closed"));
        ClosedAfterReply(s, t, View(), c, p);
      } else {
        CloseConn(p);
        ClosedWithPeer(s, t, View(), c, p);
      }
    }

    method ReplyError(c: nat, req: Header, code: uint16, msg: seq<byte>)
      requires Good(View()) && 0 < c < |conns| && conns[c].role == Down
      requires clean ==> Open(View(), c)
      modifies this
      ensures Replies(old(View()), View(), c) && at >= old(at)
      ensures Told(old(View()), View(), c, ErrorFrame(req, code, msg))
      ensures reports == old(reports)
      decreases |tab|, 5
    {
      hide Good, Shrinks, Flushes, Replies;
      ghost var s := View();
      var f := ErrorFrame(req, code, msg);
      ErrorFrameReads(req, code, msg);
      Flush(c, [Raw(f)]);
      FlatOne(Raw(f));
      ghost var t := View();
      FlushesLengths(s, t, c, Raw(f));
      Note(c, f, Own);
      assert View() == Noted(t, c, f, Own);
      RepliesAfter(s, t, c, f);
      ToldAfter(s, t, c, f);
    }

    /** Hands whole frames to c's socket, after whatever still waits. */
    method Flush(c: nat, parts: seq<seq<byte>>)
      requires Good(View()) && 0 < c < |conns|
      requires (clean ==> Open(View(), c)) && conns[c].role != Connecting
      modifies this
      ensures Flushes(old(View()), View(), c, Flat(parts)) && at >= old(at)
      ensures reports == old(reports)
      decreases |tab|, 4
    {
      hide Good, Shrinks, Flushes;
      ghost var s := View();
      if |conns[c].writeRemain| > 0 {
        FlushRemain(c);
        ghost var t := View();
        FlushesLengths(s, t, c, []);
        if |conns[c].writeRemain| > 0 {
          Append(c, parts);
          FlushedAndAppended(s, t, View(), c, Flat(parts));
        } else {
          FlushesTable(s, t, c, []);
          FlushFresh(c, parts);
          FlushedThenFlushed(s, t, View(), c, Flat(parts));
        }
      } else {
        FlushFresh(c, parts);
      }
    }

    /** The loop that queues the parts behind waiting bytes. */
    method Append(c: nat, parts: seq<seq<byte>>)
      requires c < |conns|
      modifies this`conns
      ensures conns == old(conns)[c := old(conns[c]).(writeRemain := old(conns[c].writeRemain) + Flat(parts))]
    {
      var w := conns[c].writeRemain;
      var i := 0;
      while i < |parts|
        invariant 0 <= i <= |parts|
        invariant conns == old(conns) && w == old(conns[c].writeRemain) + Flat(parts[..i])
      {
        FlatPrefix(parts, i);
        w := w + parts[i];
        i := i + 1;
      }
      assert parts[..|parts|] == parts;
      conns := conns[c := conns[c].(writeRemain := w)];
    }

    /** The rest of flush, when nothing waits: one gathering write, and the remainder is kept. */
    method FlushFresh(c: nat, parts: seq<seq<byte>>)
      requires Good(View()) && 0 < c < |conns| && conns[c].writeRemain == []
      requires clean ==> Open(View(), c)
      modifies this
      ensures Flushes(old(View()), View(), c, Flat(parts)) && at >= old(at)
      ensures reports == old(reports)
      decreases |tab|, 3
    {
      hide Good, Shrinks, Flushes, Sound, Stashed;
      ghost var s := View();
      GoodFacts(s);
      var iov := NonEmpty(parts);
      if |iov| == 0 {
        FlushesNothing(s, c);
        return;
      }
      WriteOut(c, iov);
    }

    /** One gathering write of parts that are not empty. EAGAIN is noted, and counts as nothing taken. */
    method WriteOut(c: nat, iov: seq<seq<byte>>)
      requires Good(View()) && 0 < c < |conns| && conns[c].writeRemain == []
      requires clean ==> Open(View(), c)
      modifies this
      ensures Flushes(old(View()), View(), c, Flat(iov)) && at >= old(at)
      ensures !Failing(old(Env())) ==> Stashed(old(View()), View(), c, Flat(iov), Takes(old(Env()), |Flat(iov)|))
      ensures !Failing(old(Env())) ==> choked == (old(choked) || Blocking(old(Env())))
      ensures reports == old(reports)
      decreases |tab|, 2
    {
      hide Good, Flushes, Stashed;
      ghost var s := View();
      ChokedGood(s, choked || Blocking(Env()));
      choked := choked || Blocking(Env());
      ghost var t := View();
      Gather(c, iov);
      ChokedFlushes(s, t, View(), c, Flat(iov));
      ChokedStashes(s, t, View(), c, Flat(iov));
    }

    method Gather(c: nat, iov: seq<seq<byte>>)
      requires Good(View()) && 0 < c < |conns| && conns[c].writeRemain == []
      requires clean ==> Open(View(), c)
      modifies this
      ensures Flushes(old(View()), View(), c, Flat(iov)) && at >= old(at)
      ensures !Failing(old(Env())) ==>
                Stashed(old(View()), View(), c, Flat(iov), Takes(old(Env()), |Flat(iov)|)) && choked == old(choked)
      ensures reports == old(reports)
      decreases |tab|, 2, 0
    {
      hide Good, Shrinks, Flushes, Sound, Stashed, Wrote, Took;
      ghost var s := View();
      GoodFacts(s);
      var n, hard := Offer(c, Flat(iov));
      ghost var t := View();
      NoWaiting(s, t, c, Flat(iov)[..n]);
      if hard {
        Spoil(c, s, Flat(iov)[..n], [], Flat(iov));
      } else {
        Keep(c, iov, n, s);
      }
    }

    /** s is the state before n bytes were taken. */
    method Keep(c: nat, iov: seq<seq<byte>>, n: nat, ghost s: State)
      requires Sound(s) && c < |s.conns| == |s.hist| == |conns| && s.conns[c].writeRemain == []
               && (s.clean ==> Open(s, c))
      requires n <= |Flat(iov)| && View() == Wrote(s, c, Flat(iov)[..n], [])
      modifies this`conns, this`interest
      ensures Flushes(s, View(), c, Flat(iov)) && Stashed(s, View(), c, Flat(iov), n) && choked == s.choked
    {
      hide Flushes, Sound, Stashed, Wrote, Took;
      ghost var t := View();
      WroteFacts(s, c, Flat(iov)[..n], []);
      var lost := StashRemainder(c, iov, n);
      FlushesFresh(s, t, View(), c, Flat(iov), n);
    }

    /** A write of the bytes to c's socket, and the counters after it. */
    method Offer(c: nat, bytes: seq<byte>) returns (n: nat, hard: bool)
      requires c < |hist| == |conns|
      modifies this`at, this`outBytes, this`hist
      ensures n == Takes(old(Env()), |bytes|) && hard == Failing(old(Env())) && at >= old(at)
              && Env() == Later(old(Env()))
      ensures View() == Took(old(View()), c, bytes[..n])
    {
      n, hard := Write(|bytes|);
      if n > 0 { outBytes := outBytes + n; }
      hist := hist[c := hist[c].(accepted := hist[c].accepted + bytes[..n])];
    }

    /** A write has failed for good: the connection is closed. */
    method Spoil(c: nat, ghost s: State, ghost taken: seq<byte>, ghost w: seq<byte>, ghost bytes: seq<byte>)
      requires Sound(s) && 0 < c < |s.conns| == |conns| == |s.hist|
      requires View() == Wrote(s, c, taken, w) && (s.clean ==> Open(s, c)) && (w != [] ==> s.conns[c].writeRemain != [])
      modifies this
      ensures Flushes(s, View(), c, bytes) && Good(View()) && at >= old(at)
      ensures reports == old(reports)
      decreases |tab|, 1
    {
      hide Good, Shrinks, Sound, Closes, Flushes;
      clean := false;
      ghost var t := View();
      SpoiledWrite(s, c, taken, w);
      CloseConn(c);
      SpoiledClose(s, t, View(), c);
      SpoiledFlush(s, View(), c, bytes);
    }

    /** What n, the raw count of the write, leaves of the parts is kept; lost when a slice would start below zero. */
    method StashRemainder(c: nat, iov: seq<seq<byte>>, n: int) returns (lost: bool)
      requires c < |conns| && n <= |Flat(iov)|
      modifies this`conns, this`interest
      ensures lost <==> n < 0 && iov != []
      ensures lost ==> conns == old(conns) && interest == old(interest)
      ensures n >= 0 ==>
                var w := old(conns[c].writeRemain) + Flat(iov)[n..]; var fd := old(conns[c].fd);
                && conns == old(conns)[c := old(conns[c]).(writeRemain := w)]
                && interest == if w != [] && fd in old(interest) then old(interest)[fd := Interest(true, true)]
                   else old(interest)
    {
      var rest;
      rest, lost := Beyond(iov, n);
      if lost { return; }
      conns := conns[c := conns[c].(writeRemain := conns[c].writeRemain + rest)];
      if |conns[c].writeRemain| > 0 { Mod(conns[c].fd, Interest(true, true)); }
    }

    /** Writes out waiting bytes as far as the socket takes them. */
    method FlushRemain(c: nat)
      requires Good(View()) && 0 < c < |conns|
      requires (clean ==> Open(View(), c)) && conns[c].role != Connecting
      modifies this
      ensures Flushes(old(View()), View(), c, []) && Good(View()) && at >= old(at)
      ensures old(conns[c].writeRemain) == [] ==> View() == old(View()) && at == old(at)
      ensures old(conns[c].writeRemain) != [] && !Failing(old(Env())) ==>
                Drew(old(View()), View(), c, Takes(old(Env()), |old(conns[c].writeRemain)|))
                  && Env() == Later(old(Env()))
      ensures reports == old(reports)
      decreases |tab|, 2
    {
      hide Good, Shrinks, Flushes, Sound;
      if |conns[c].writeRemain| == 0 {
        FlushesNothing(View(), c);
      } else {
        SendWaiting(c);
      }
    }

    /** One write of the bytes that wait. */
    method SendWaiting(c: nat)
      requires Good(View()) && 0 < c < |conns| && conns[c].writeRemain != []
      requires (clean ==> Open(View(), c)) && conns[c].role != Connecting
      modifies this
      ensures Flushes(old(View()), View(), c, []) && Good(View()) && at >= old(at)
      ensures !Failing(old(Env())) ==>
                Drew(old(View()), View(), c, Takes(old(Env()), |old(conns[c].writeRemain)|))
                  && Env() == Later(old(Env()))
      ensures reports == old(reports)
      decreases |tab|, 2, 0
    {
      hide Good, Shrinks, Flushes, Sound, Drew;
      ghost var s := View();
      GoodFacts(s);
      var w := conns[c].writeRemain;
      var n, hard := Offer(c, w);
      conns := conns[c := conns[c].(writeRemain := conns[c].writeRemain[n..])];
      ghost var t := View();
      assert t == Wrote(s, c, w[..n], w[n..]);
      if hard {
        Spoil(c, s, w[..n], w[n..], []);
      } else {
        Retune(c, s, n);
      }
    }

    /** When nothing waits any more, write readiness is not asked for any more. */
    method Retune(c: nat, ghost s: State, ghost n: nat)
      requires Good(s) && c < |s.conns| == |s.hist| == |conns| && n <= |s.conns[c].writeRemain|
               && s.conns[c].writeRemain != [] && s.conns[c].role != Connecting
      requires View() == Wrote(s, c, s.conns[c].writeRemain[..n], s.conns[c].writeRemain[n..])
               && (s.clean ==> Open(s, c))
      modifies this`interest, this`robbed
      ensures Flushes(s, View(), c, []) && Good(View()) && Drew(s, View(), c, n)
    {
      hide Good, Shrinks, Flushes, Drew, Robs, Wrote, Took;
      ghost var t := View();
      WroteFacts(s, c, s.conns[c].writeRemain[..n], s.conns[c].writeRemain[n..]);
      robbed := robbed || Robs(s, c, n);
      Calm(c);
      FlushesRemain(s, t, View(), c, n);
    }

    method Calm(c: nat)
      requires c < |conns|
      modifies this`interest
      ensures interest == if |conns[c].writeRemain| == 0 && conns[c].fd in old(interest)
                          then old(interest)[conns[c].fd := Interest(true, false)] else old(interest)
    {
      if |conns[c].writeRemain| == 0 { Mod(conns[c].fd, Interest(true, false)); }
    }

    // ---- Parsing and dispatch ----

    /** Drops the payload at the head of c's ring; on a nil ring a payload that is not empty panics. */
    method ConsumePayload(c: nat, ghost d: Option<nat>)
      requires c < |conns| == |hist|
      requires conns[c].ring.Live? ==> |conns[c].ring.data| >= conns[c].parser.hdr.payloadLen
      modifies this`conns, this`hist, this`panicked
      ensures View() == Dropped(old(View()), c, d)
    {
      var k := conns[c];
      var n := k.parser.hdr.payloadLen;
      match k.ring
      case Nil =>
        if n > 0 { panicked := true; return; }
        conns := conns[c := k.(parser := ParserState(false, k.parser.hdr))];
      case Live(slot, data) =>
        conns := conns[c := k.(ring := Live(slot, data[n..]), parser := ParserState(false, k.parser.hdr))];
        hist := hist[c := hist[c].(consumed := hist[c].consumed + [HeadFrame(k.parser, data)],
          dest := hist[c].dest + [d])];
    }

    /** An ERROR reply, after which the frame is dropped. */
    method Refuse(c: nat, hdr: Header, code: uint16, msg: seq<byte>, ghost s: State)
      requires Serving(s, c) && s.conns[c].role == Down && s.conns[c].parser.hdr.opcode != OP_PING
      requires Good(View()) && Steady(s, View(), c) && !conns[c].hasPending && hdr == s.conns[c].parser.hdr
      modifies this
      ensures Dispatched(s, View(), c) && at >= old(at)
      ensures closeSeen == s.closeSeen
      ensures clean ==> Refused(s, View(), c, code, msg)
      ensures reports == old(reports)
    {
      hide Good, Shrinks, Steady, Serving, Replies, Dispatched;
      ghost var t0 := View();
      SteadyFacts(s, t0, c);
      ReplyError(c, hdr, code, msg);
      ghost var t := View();
      SteadyReply(s, t0, t, c);
      SteadySeen(s, t, c);
      ConsumePayload(c, None);
      DispatchedDrop(s, t, c);
      if t.clean { RefusedAfter(s, t0, t, c, code, msg); }
    }

    method OnPing(c: nat, hdr: Header)
      requires Serving(View(), c) && conns[c].role == Down && hdr == conns[c].parser.hdr && hdr.opcode == OP_PING
      modifies this
      ensures Dispatched(old(View()), View(), c) && at >= old(at)
      ensures closeSeen == old(closeSeen)
      ensures clean ==> Answered(old(View()), View(), c)
      ensures reports == old(reports)
    {
      hide Good, Shrinks, Flushes, Serving, Steady, Dispatched;
      ghost var s := View();
      ServingFacts(s, c);
      var h := hdr.(opcode := OP_PONG);
      var payload := conns[c].ring.data[..hdr.payloadLen];
      Flush(c, [Encode(h), payload]);
      FlatTwo(Encode(h), payload);
      PingEnds(s, View(), c);
      PassOn(c, None, c, PongFor(Head(s, c)), Pong);
    }

    /** The payload leaves c's ring, and f is noted as put on d. */
    method PassOn(c: nat, ghost dest: Option<nat>, ghost d: nat, ghost f: Frame, ghost src: Source)
      requires c < |conns| == |hist| && d < |hist|
      requires conns[c].ring.Live? ==> |conns[c].ring.data| >= conns[c].parser.hdr.payloadLen
      modifies this`conns, this`hist, this`panicked
      ensures View() == PassedOn(old(View()), c, dest, d, f, src)
    {
      hide Dropped, Noted;
      ghost var live := conns[c].ring.Live?;
      ConsumePayload(c, dest);
      if live { Note(d, f, src); }
    }

    method OnClose(c: nat)
      requires Serving(View(), c) && conns[c].role == Down && conns[c].parser.hdr.opcode == OP_CLOSE
      modifies this
      ensures Dispatched(old(View()), View(), c) && at >= old(at)
      ensures clean ==> Taken(old(View()), View(), c, None) && closeSeen && !Open(View(), c)
      ensures reports == old(reports)
      ensures old(conns[c].peer) == None ==> View() == ClosedAtOnce(old(View()), c)
    {
      hide Good, Shrinks, Closes, Serving, Dispatched;
      ghost var s := View();
      ServingFacts(s, c);
      ConsumePayload(c, None);
      closeSeen := true;
      ghost var t := View();
      CloseReady(s, t, c);
      CloseConn(c);
      DispatchedClose(s, t, View(), c);
      if s.conns[c].peer == None { ClosesAlone(t, View(), c); }
      if clean { ClosedAfter(s, t, View(), c); }
    }

    method OnUp(c: nat)
      requires Serving(View(), c) && conns[c].role == Up
      modifies this
      ensures Dispatched(old(View()), View(), c) && at >= old(at)
      ensures closeSeen == old(closeSeen) && reports == old(reports) + ReportsOn(old(conns[c]))
      ensures clean ==> Relayed(old(View()), View(), c)
    {
      hide Good, Serving, Dispatched, Dropped, Relayed, Open;
      ghost var s := View();
      ServingFacts(s, c);
      if conns[c].peer == None {
        Skip(c);
        DroppedSeen(s, c, None);
        RelayedNowhere(s, c);
        return;
      }
      Report(c);
      Relay(c, conns[c].peer.value);
    }

    /** The endpoint of c is told that a frame came, and that it was an ERROR if it was one. */
    method Report(c: nat)
      requires c < |conns| && conns[c].peer.Some?
      modifies this`reports
      ensures reports == old(reports) + ReportsOn(conns[c])
    {
      if conns[c].ep.Some? {
        reports := reports + [Success(conns[c].ep.value)];
        if conns[c].parser.hdr.opcode == OP_ERROR { reports := reports + [Failure(conns[c].ep.value)]; }
      }
    }

    /** An upstream's frame goes to its client, byte for byte. */
    method Relay(c: nat, down: nat)
      requires Serving(View(), c) && conns[c].role == Up && conns[c].peer == Some(down)
      modifies this
      ensures Dispatched(old(View()), View(), c) && at >= old(at)
      ensures closeSeen == old(closeSeen)
      ensures clean ==> Relayed(old(View()), View(), c)
      ensures reports == old(reports)
    {
      hide Good, Shrinks, Flushes, Serving, Steady, Dispatched, Relayed;
      ghost var s := View();
      ServingFacts(s, c);
      UpMayPass(s, c);
      var hdr := conns[c].parser.hdr;
      var payload := conns[c].ring.data[..hdr.payloadLen];
      Flush(down, [Encode(hdr), payload]);
      FlatTwo(Encode(hdr), payload);
      RelayEnds(s, View(), c, down);
      PassOn(c, Some(down), down, Head(s, c), From(c));
    }

    // ---- Sending the pending frame ----

    /** Passes client c's pending frame to its upstream u, byte for byte. */
    method SendFrame(c: nat, u: nat)
      requires SendReady(View(), c, u)
      modifies this
      ensures FrameSent(old(View()), View(), c) && at >= old(at)
      ensures clean ==> Passed(old(View()), View(), c, u)
      ensures reports == old(reports)
    {
      hide Good, Shrinks, Flushes, Steady, FrameSent, SendReady;
      ghost var s := View();
      SendFacts(s, c, u);
      var k := conns[c];
      if k.ring == Nil && k.parser.hdr.payloadLen > 0 {
        panicked := true;
        SentOnNil(s, c, u);
        SentNilUnclean(s, s, c, u);
        return;
      }
      var payload := if k.ring.Live? then k.ring.data[..k.parser.hdr.payloadLen] else [];
      Flush(u, [Encode(k.pending), payload]);
      FlatTwo(Encode(k.pending), payload);
      FinishSend(c, u, s, Encode(k.pending) + payload);
    }

    /** After the flush: the payload leaves the client's ring, and nothing is pending any more. */
    method FinishSend(c: nat, ghost u: nat, ghost s: State, ghost bytes: seq<byte>)
      requires SendReady(s, c, u) && Flushes(s, View(), u, bytes)
               && (s.conns[c].ring.Live? ==> bytes == Raw(Head(s, c)))
      modifies this`conns, this`hist, this`panicked
      ensures FrameSent(s, View(), c)
      ensures clean ==> Passed(s, View(), c, u)
    {
      hide Good, Shrinks, Flushes, Steady, FrameSent, SendReady, Passed, PassedOn, Unpended;
      SendEnds(s, View(), c, u, bytes);
      SendFacts(s, c, u);
      ghost var f := if s.conns[c].ring.Live? then Head(s, c) else Frame(ZERO_HEADER, []);
      PassOn(c, Some(u), u, f, From(c));
      if panicked { return; }
      ClearPending(c);
    }

    method ClearPending(c: nat)
      requires c < |conns|
      modifies this`conns
      ensures View() == Unpended(old(View()), c)
    {
      conns := conns[c := conns[c].(hasPending := false)];
    }

    /**
     * Sends the pending frame, which leads to the state mid; a paused client at or below the low water mark
     * reads on.
     */
    method SendPending(c: nat, u: nat) returns (ghost mid: State)
      requires SendReady(View(), c, u) && c < |conns|
      modifies this
      ensures SentVia(old(View()), mid, View(), c, u)
      ensures if old(conns[c].paused) then Ended(View()) else cur == old(cur)
      ensures mid.clean && Tuned(cfg) && !panicked ==>
                (c < |conns| && conns[c].paused && !conns[c].hasPending
                 <==> old(conns[c].paused) && TooMuch(LeftAfter(old(View()), c), cfg))
      ensures at >= old(at)
      ensures !Resumes(mid, c) ==> reports == old(reports)
      decreases |Env()|, 2
    {
      hide Good, FrameSent, SendReady, Ended, Idle, Passed, ReadOn, Settled, Reading;
      ghost var s := View();
      SendFrame(c, u);
      mid := View();
      SentFacts(s, mid, c);
      SentPanics(s, mid, c, u);
      if mid.clean && s.conns[c].paused { LeftInRing(s, mid, c, u); }
      if panicked || !conns[c].paused { return; }
      if conns[c].ring == Nil {
        panicked := true;
        return;
      }
      if |conns[c].ring.data| <= cfg.low {
        Resume(c, u, s);
      } else {
        Idled(s, mid, c, u);
        stuck, cur := stuck + {c}, -1;
      }
    }

    /** A paused client at or below the low water mark reads on. */
    method Resume(c: nat, ghost u: nat, ghost s: State)
      requires SendReady(s, c, u) && FrameSent(s, View(), c) && Resumes(View(), c) && c < |conns|
               && !conns[c].hasPending
      modifies this
      ensures Ended(View()) && at >= old(at) && c < |conns|
      ensures ReadOn(old(View()), View(), c, []) && (old(Settled(View(), c)) && !panicked ==> AtRest(View(), c))
      ensures Tuned(cfg) && !panicked ==> (conns[c].paused && !conns[c].hasPending <==> !old(Readable(View(), c)))
      decreases |Env()|, 1, 1
    {
      hide Good, FrameSent, SendReady, Ended, Idle, ReadOn, Settled, Reading, ReadTurns, AtRest;
      ghost var mid := View();
      Resumed(s, mid, c, u);
      conns := conns[c := conns[c].(paused := false)];
      ghost var t, pos := View(), at;
      ghost var turns := ReadFrom(c);
      TurnsGathered(turns, t, pos, View(), c, script);
      ResumedReads(mid, t, View(), c, Offered(t, c, Left(script, pos)));
    }

    // ---- Reading ----

    /**
     * Reads c's socket until it has no more, is paused, or is closed. If nothing complete was left
     * over before, nothing is left over after, but for a frame that is pending; and then, with
     * fitting water marks, c is paused only while a frame is pending.
     */
    method ReadLoop(c: nat) returns (ghost turns: seq<Turn>)
      requires Idle(View()) && 0 < c < |conns| && !conns[c].paused
      modifies this
      ensures Ended(View()) && at >= old(at) && c < |conns|
      ensures old(Settled(View(), c)) && !panicked ==> Settled(View(), c)
      ensures Watched(old(View())) && old(conns[c].role) == Down && !panicked && conns[c].paused ==> conns[c].hasPending
      ensures ReadTurns(turns, old(View()).(cur := c), old(at), View(), c, script)
      ensures Fetched(old(View()), View(), c, Gathered(turns, c, script))
      ensures ReadOn(old(View()), View(), c, Offered(old(View()), c, old(Env())))
      ensures Fatal(old(View()), c, old(Env())) ==> Perished(old(View()), View())
      decreases |Env()|, 1, 1
    {
      hide Good, Idle, Ended, Reading, Settled, ReadTurns, ReadOn, Gathered, Offered, Fatal, Fetched, AtRest, Readable,
        Watched, Perished;
      ghost var s := View();
      StartReading(s, c);
      WatchedIsTuned(s);
      if Fatal(s, c, Env()) { FatalTurned(s, c, Env()); }
      cur := c;
      turns := ReadServed(c, s);
    }

    /** s is the state before c was served. */
    method ReadServed(c: nat, ghost s: State) returns (ghost turns: seq<Turn>)
      requires View() == s.(cur := c) && Reading(View(), c) && c < |conns|
      requires Tuned(cfg) && conns[c].role != Down ==> Settled(View(), c)
      modifies this
      ensures Ended(View()) && at >= old(at) && c < |conns|
      ensures Settled(s.(cur := c), c) && !panicked ==> Settled(View(), c)
      ensures Tuned(cfg) && (Settled(s.(cur := c), c) || Readable(s.(cur := c), c)) && !panicked && conns[c].paused ==>
              conns[c].hasPending
      ensures ReadTurns(turns, s.(cur := c), old(at), View(), c, script)
      ensures Fetched(s, View(), c, Gathered(turns, c, script))
      ensures ReadOn(s, View(), c, Offered(s, c, old(Env())))
      ensures Fatal(s.(cur := c), c, old(Env())) ==> Perished(s, View())
      decreases |Env()|, 1, 0
    {
      hide Good, Ended, Reading, Settled, ReadTurns, ReadOn, Gathered, Offered, Fatal, Fetched, Readable, AtRest;
      ghost var pos := at;
      turns := ReadFrom(c);
      LoopTurned(turns, s, pos, View(), c, script);
      if AtRest(View(), c) { AtRestWaits(View(), c); }
    }

    /** The loop of readLoop. */
    method ReadFrom(c: nat) returns (ghost turns: seq<Turn>)
      requires Reading(View(), c) && c < |conns|
      requires Tuned(cfg) && conns[c].role != Down ==> Settled(View(), c)
      modifies this
      ensures Ended(View()) && at >= old(at) && c < |conns|
      ensures old(Settled(View(), c)) && !panicked ==> AtRest(View(), c)
      ensures Tuned(cfg) && old(Readable(View(), c)) && !panicked && conns[c].paused ==> conns[c].hasPending
      ensures old(IsLive(View(), c)) && !old(Readable(View(), c)) ==> View() == PausedAt(old(View()), c)
      ensures ReadTurns(turns, old(View()), old(at), View(), c, script)
      ensures Fatal(old(View()), c, old(Env())) ==> Perished(old(View()), View())
      decreases |Env()|, 0, 1
    {
      hide Good, Ended, Reading, Settled, ReadSoFar, ReadTurns, Fetched, PausedAt, Readable, OnceRead, Fatal, Stops,
        Offered;
      ghost var calm, s, pos := Settled(View(), c), View(), at;
      turns := [];
      SoFarAtFirst(s, pos, c, script);
      var more := true;
      while more
        invariant at >= pos && c < |conns|
        invariant more ==> Reading(View(), c) && (Tuned(cfg) && conns[c].role != Down ==> Settled(View(), c))
        invariant more && (calm || turns != []) ==> Settled(View(), c)
        invariant more ==> ReadSoFar(turns, s, pos, View(), at, c, script)
        invariant turns == [] ==> more && View() == s && at == pos
        invariant turns != [] && IsLive(s, c) && !Readable(s, c) ==> !more && View() == PausedAt(s, c)
        invariant !more ==> Ended(View()) && ReadTurns(turns, s, pos, View(), c, script)
        invariant turns != [] && Fatal(s, c, old(Env())) ==> !more && Perished(s, View())
        invariant !more && calm && !panicked ==> AtRest(View(), c)
        invariant !more && Tuned(cfg) && Readable(s, c) && !panicked && conns[c].paused ==> conns[c].hasPending
        decreases |Env()|, more
      {
        ghost var t, now := View(), at;
        ghost var env := Env();
        more := ReadOnce(c, calm || turns != [], t);
        OnceFacts(t, View(), c, env, calm || turns != [], more);
        TurnTaken(turns, s, pos, t, now, View(), at, c, script, more);
        turns := turns + [Turn(t, now)];
      }
    }

    /** One turn of the loop that reads c. */
    method ReadOnce(c: nat, ghost calm: bool, ghost s: State) returns (more: bool)
      requires View() == s && Reading(s, c) && c < |conns| && (calm ==> Settled(s, c))
      requires Tuned(cfg) && conns[c].role != Down ==> Settled(s, c)
      modifies this
      ensures c < |conns| && at >= old(at)
      ensures more ==> Reading(View(), c) && Settled(View(), c) && |Env()| < |old(Env())| && at > old(at)
      ensures OnceRead(s, View(), c, old(Env()), calm, more)
      decreases |Env()|, 0, 0, 1
    {
      hide Good, Ended, Reading, Settled, Fetched, SameSource, AtRest, OnceRead;
      ReadingFacts(s, c);
      if conns[c].ring == Nil {
        Rest(c, calm);
        more := false;
        OnceIdle(s, View(), c, Env(), calm);
      } else if |conns[c].ring.data| >= cfg.high || |conns[c].ring.data| == cfg.cap - 1 {
        Pause(c, calm);
        more := false;
        OncePaused(s, View(), c, Env(), calm);
      } else {
        more := ReadReady(c, calm, s, Env());
      }
    }

    /** c may be read: one read from its socket, and what follows from it. */
    method ReadReady(c: nat, ghost calm: bool, ghost s: State, ghost env: seq<Answer>) returns (more: bool)
      requires View() == s && Env() == env
      requires Reading(s, c) && c < |conns| && Readable(s, c) && (calm ==> Settled(s, c))
      requires Tuned(cfg) && conns[c].role != Down ==> Settled(s, c)
      modifies this
      ensures c < |conns| && at >= old(at)
      ensures more ==> Reading(View(), c) && Settled(View(), c) && |Env()| < |env| && at > old(at)
      ensures OnceRead(s, View(), c, env, calm, more)
      decreases |Env()|, 0, 0, 0
    {
      hide Ended, Reading, Settled, AtRest, Readable, OnceRead, Tuned;
      var a := Ask();
      if a.err == Again {
        RestRead(c, calm, s, env);
        more := false;
      } else if a.err == Hard || a.data == [] {
        StopRead(c, calm, s, env);
        more := false;
      } else {
        more := TakeRead(c, a.data, calm, s, env);
      }
    }

    ghost method RestRead(c: nat, calm: bool, s: State, env: seq<Answer>)
      requires View() == s && Reading(s, c) && c < |conns| && Readable(s, c) && (calm ==> Settled(s, c))
      requires Tuned(cfg) && conns[c].role != Down ==> Settled(s, c)
      requires env == [] || env[0].err == Again
      modifies this`cur
      ensures c < |conns| && OnceRead(s, View(), c, env, calm, false)
    {
      hide Good, Ended, Reading, Settled, Fetched, AtRest, Readable, OnceRead, Tuned;
      ReadableFacts(s, c);
      ReadingUnpaused(s, c);
      Rest(c, calm);
      OnceAgain(s, View(), c, env, calm);
    }

    method StopRead(c: nat, ghost calm: bool, ghost s: State, ghost env: seq<Answer>)
      requires View() == s && Reading(s, c) && c < |conns| && Readable(s, c)
      requires env != [] && (env[0].err == Hard || (env[0].err == Fine && env[0].data == []))
      modifies this
      ensures c < |conns| && at >= old(at) && OnceRead(s, View(), c, env, calm, false)
    {
      hide Good, Ended, Reading, Fetched, AtRest, Readable, OnceRead;
      CloseRead(c);
      OnceClosed(s, View(), c, env, calm);
    }

    method TakeRead(c: nat, data: seq<byte>, ghost calm: bool, ghost s: State, ghost env: seq<Answer>)
        returns (more: bool)
      requires View() == s && Reading(s, c) && c < |conns| && Readable(s, c)
      requires env != [] && env[0].err == Fine && env[0].data == data != []
      modifies this
      ensures c < |conns| && at >= old(at) && OnceRead(s, View(), c, env, calm, more)
      ensures more ==> Reading(View(), c) && Settled(View(), c)
      decreases |Env()|, 11
    {
      hide Good, Ended, Reading, Settled, Fetched, AtRest, Readable, OnceRead, Doomed, Perished, Received;
      ReadableFacts(s, c);
      more := TakeIn(c, data);
      OnceTaken(s, View(), c, env, calm, more);
    }

    /** What was read goes into c's ring, and what that completes is worked off. */
    method TakeIn(c: nat, bytes: seq<byte>) returns (more: bool)
      requires Reading(View(), c) && c < |conns| && IsLive(View(), c) && |conns[c].ring.data| < cfg.cap
      modifies this
      ensures c < |conns| && at >= old(at)
      ensures more ==> Reading(View(), c) && Settled(View(), c)
      ensures !more ==> Ended(View()) && (panicked || (AtRest(View(), c) && !IsLive(View(), c)))
      ensures Fetched(old(View()), View(), c, Room(old(View()), c, bytes))
      ensures Doomed(Received(old(View()), c, Room(old(View()), c, bytes)), c) ==>
              !more && Perished(old(View()), View())
      decreases |Env()|, 10
    {
      ghost var s := View();
      ReadingFacts(s, c);
      hide Good, Ended, Reading, Settled, Working, AtRest, Fetched, SameSource, Doomed;
      Receive(c, bytes);
      ghost var t := View();
      WorkingLive(t, c);
      var done := WorkOff(c);
      FetchedThenSame(s, t, View(), c, Room(s, c, bytes));
      more := !done;
    }

    /** The peer is gone or the socket failed: c is closed and no longer read. */
    method CloseRead(c: nat)
      requires Reading(View(), c) && c < |conns|
      modifies this
      ensures Ended(View()) && at >= old(at) && c < |conns| && AtRest(View(), c) && !Open(View(), c)
              && !IsLive(View(), c)
      ensures Fetched(old(View()), View(), c, [])
    {
      hide Good, Ended, Reading, Closes, SameSource, Fetched;
      ghost var s := View();
      ReadingFacts(s, c);
      CloseConn(c);
      CloseReading(s, View(), c);
      cur := -1;
      FetchedNothing(s, View(), c);
    }

    /** Nothing more to read for now. */
    ghost method Rest(c: nat, calm: bool)
      requires Reading(View(), c) && c < |conns| && (calm ==> Settled(View(), c))
      requires Short(conns[c], cfg) && (Tuned(cfg) && conns[c].role != Down ==> Settled(View(), c))
      modifies this`cur
      ensures Ended(View()) && View() == old(View()).(cur := -1) && (calm ==> AtRest(View(), c))
      ensures Fetched(old(View()), View(), c, [])
    {
      hide Good, Ended, Reading;
      ReadingFacts(View(), c);
      StopReading(View(), c);
      cur := -1;
    }

    /** The ring is full, or full enough: c is not read until it is resumed. */
    method Pause(c: nat, ghost calm: bool)
      requires Reading(View(), c) && IsLive(View(), c) && c < |conns| && (calm ==> Settled(View(), c))
      requires |conns[c].ring.data| >= cfg.high || |conns[c].ring.data| == cfg.cap - 1
      requires Tuned(cfg) && conns[c].role != Down ==> Settled(View(), c)
      modifies this`conns, this`cur, this`stuck
      ensures Ended(View()) && c < |conns| && View() == PausedAt(old(View()), c)
      ensures calm ==> AtRest(View(), c)
      ensures Fetched(old(View()), View(), c, [])
    {
      hide Good, Ended, Reading, Settled, AtRest, PausedAt, Fetched;
      ghost var s := View();
      NotReadable(s, c);
      PauseReading(s, c, Settled(s, c));
      PausedFetched(s, c);
      Halt(c);
    }

    method Halt(c: nat)
      requires c < |conns|
      modifies this`conns, this`cur, this`stuck
      ensures c < |conns| && View() == PausedAt(old(View()), c)
    {
      if conns[c].role == Down && !conns[c].hasPending { stuck := stuck + {c}; }
      conns := conns[c := conns[c].(paused := true)];
      cur := -1;
    }

    /** The chunk is read into c's ring. */
    method Store(c: nat, chunk: seq<byte>)
      requires c < |conns| == |hist| && conns[c].ring.Live?
      modifies this`conns, this`hist
      ensures View() == Received(old(View()), c, chunk)
    {
      var k := conns[c];
      conns := conns[c := k.(ring := Live(k.ring.slot, k.ring.data + chunk))];
      hist := hist[c := hist[c].(received := hist[c].received + chunk)];
    }

    /** As many of the bytes as c's ring has room for are read into it. */
    method Receive(c: nat, bytes: seq<byte>)
      requires Reading(View(), c) && c < |conns| && IsLive(View(), c) && |conns[c].ring.data| < cfg.cap
      modifies this`conns, this`hist
      ensures Reading(View(), c) && IsLive(View(), c) && c < |conns|
      ensures View() == Received(old(View()), c, Room(old(View()), c, bytes))
    {
      hide Good, Reading, Received;
      ReadingFacts(View(), c);
      var room := cfg.cap - 1 - |conns[c].ring.data|;
      var chunk := if |bytes| <= room then bytes else bytes[..room];
      ReceiveChunk(View(), c, chunk);
      Store(c, chunk);
    }

    /** Works off the frames that are complete in c's ring, until one is pending or none is left. */
    method WorkOff(c: nat) returns (done: bool)
      requires Working(View(), c) && c < |conns|
      modifies this
      ensures c < |conns| && at >= old(at)
      ensures done ==> Ended(View()) && (panicked || (AtRest(View(), c) && !IsLive(View(), c)))
      ensures !done ==> Reading(View(), c) && Settled(View(), c) && !panicked
      ensures SameSource(old(View()), View(), c)
      ensures Doomed(old(View()), c) ==> Perished(old(View()), View())
      decreases |Env()|, 9
    {
      hide Working, Worked, OneWorked, SameSource, Ended, Reading, Settled, AtRest, Doomed, Perished;
      ghost var s := View();
      WorkedNothing(s, c);
      done := false;
      var stop := false;
      while !stop && !conns[c].hasPending
        invariant c < |conns| && at >= old(at) && Worked(s, View(), c, stop, done)
        decreases if stop || conns[c].hasPending then 0 else 1 + Load(conns[c])
      {
        ghost var t := View();
        WorkedMore(s, t, c, done);
        stop, done := WorkOne(c);
        WorkedOnce(s, t, View(), c, stop, done);
      }
      WorkedOff(s, View(), c, stop, done);
    }

    /** One Next step and the dispatch of the frame it completes. */
    method WorkOne(c: nat) returns (stop: bool, done: bool)
      requires Working(View(), c) && c < |conns| && !conns[c].hasPending
      modifies this
      ensures at >= old(at) && OneWorked(old(View()), View(), c, stop, done)
      decreases |Env()|, 8, 1
    {
      hide Good, Ended, Reading, Settled, Working, AtRest, SameSource, Parsed1, NextOn, Fell;
      ghost var s := View();
      DoomedLives(s, c);
      WorkingSource(s, c);
      if conns[c].ring == Nil {
        WorkingNil(s, c);
        panicked := true;
        return true, true;
      }
      var answer := ParserNext(c);
      stop, done := Act(c, answer, s);
    }

    /** What follows from one Next: c is rejected, or waits for more bytes, or its frame is dispatched. */
    method Act(c: nat, answer: Parsing.Answer, ghost s: State) returns (stop: bool, done: bool)
      requires Working(s, c) && c < |s.conns| && s.conns[c].ring.Live? && !s.conns[c].hasPending
               && View() == Parsed1(s, c)
      requires answer == NextOn(s.conns[c].parser, s.conns[c].ring.data, Limit(s.cfg.maxPayload)).answer
      modifies this
      ensures c < |conns| && SameSource(s, View(), c) && at >= old(at)
      ensures !stop ==> Working(View(), c) && (conns[c].hasPending || Load(conns[c]) < Load(s.conns[c]))
      ensures done ==> stop && Ended(View()) && (panicked || (AtRest(View(), c) && !IsLive(View(), c)))
      ensures stop && !done ==> Reading(View(), c) && Settled(View(), c)
      ensures Doomed(s, c) ==> !stop && Fell(s, View(), c)
      decreases |Env()|, 8, 0
    {
      if Doomed(s, c) { DoomedParses(s, c); }
      hide Good, Ended, Reading, Settled, Working, Dispatched, Serving, AtRest, SameSource, Doomed, Parsed1, NextOn;
      WorkingNext(s, c);
      ghost var p := View();
      ReadingFacts(p, c);
      match answer
      case Failed(e) =>
        Reject(c, e);
        SameSourceTrans(s, p, View(), c);
        return true, true;
      case More =>
        return true, false;
      case Complete =>
        Dispatch(c);
        DispatchedFacts(p, View(), c);
        SameSourceTrans(s, p, View(), c);
        WorkingDispatched(s, p, View(), c);
        if Doomed(s, c) { DoomedFalls(s, View(), c); }
        return panicked, panicked;
    }

    /** The parser's Next on c's ring. */
    method ParserNext(c: nat) returns (answer: Parsing.Answer)
      requires c < |conns| && conns[c].ring.Live?
      modifies this`conns
      ensures View() == Parsed1(old(View()), c)
      ensures answer == NextOn(old(conns[c].parser), old(conns[c].ring.data), Limit(cfg.maxPayload)).answer
    {
      var k := conns[c];
      var step := NextOn(k.parser, k.ring.data, Limit(cfg.maxPayload));
      conns := conns[c := k.(ring := Live(k.ring.slot, k.ring.data[step.dropped..]), parser := step.state)];
      answer := step.answer;
    }

    /** A frame that breaks the protocol: a client is told, and the connection is closed. */
    method Reject(c: nat, e: Error)
      requires Reading(View(), c) && c < |conns| && IsLive(View(), c) && (clean ==> Open(View(), c))
      modifies this
      ensures Ended(View()) && at >= old(at)
      ensures c < |conns| && AtRest(View(), c) && !Open(View(), c) && !IsLive(View(), c)
              && SameSource(old(View()), View(), c)
      ensures clean && old(conns[c].role) == Down ==>
              LastOn(View(), c, ErrorFrame(ZERO_HEADER, CodeOf(e), ErrorText(e)), Own)
    {
      hide Good, Ended, Reading, Closes, Replies;
      ghost var s := View();
      ReadingFacts(s, c);
      if conns[c].role == Down {
        ReplyError(c, ZERO_HEADER, CodeOf(e), ErrorText(e));
        RepliesFacts(s, View(), c);
      }
      ghost var t := View();
      CloseConn(c);
      RejectFacts(s, t, View(), c);
      if clean && s.conns[c].role == Down {
        RejectTold(s, t, View(), c, ErrorFrame(ZERO_HEADER, CodeOf(e), ErrorText(e)));
      }
      cur := -1;
    }

    // ---- Dispatch ----

    method Dispatch(c: nat)
      requires Serving(View(), c) && c < |conns|
      modifies this
      ensures c < |conns| && Dispatched(old(View()), View(), c) && at >= old(at)
      ensures clean ==> (closeSeen <==> old(conns[c].role) == Down && old(conns[c].parser.hdr.opcode) == OP_CLOSE)
      ensures old(reports) <= reports
      ensures clean ==> Handled(old(View()), View(), c, ChoiceOf(old(Env())), reports[|old(reports)|..])
      ensures old(conns[c].role) == Down && old(conns[c].parser.hdr.opcode) == OP_CLOSE
              && old(conns[c].peer) == None ==>
                View() == ClosedAtOnce(old(View()), c)
      decreases |Env()|, 7
    {
      hide Good, Serving, Dispatched, Handled, Relayed, ClosedAtOnce, Dropped;
      ghost var s := View();
      ServingFacts(s, c);
      ServingMore(s, c);
      if conns[c].role == Down {
        OnDown(c);
      } else if conns[c].role == Up {
        OnUp(c);
        if clean { HandledUp(s, View(), c, ChoiceOf(old(Env())), reports[|old(reports)|..]); }
      } else {
        Skip(c);
        HandledElse(s, c, ChoiceOf(old(Env())));
        assert reports[|old(reports)|..] == [];
      }
      DispatchedFacts(s, View(), c);
    }

    /** The frame is dropped without an answer. */
    method Skip(c: nat)
      requires Serving(View(), c) && c < |conns| == |hist|
      requires conns[c].role == Down ==> conns[c].parser.hdr.opcode != OP_PING
      modifies this
      ensures Dispatched(old(View()), View(), c) && View() == Dropped(old(View()), c, None) && at == old(at)
      ensures reports == old(reports)
    {
      hide Good, Serving, Dispatched, Steady;
      ghost var s := View();
      ServingFacts(s, c);
      SteadySelf(s, c);
      ConsumePayload(c, None);
      DispatchedDrop(s, s, c);
    }

    method OnDown(c: nat)
      requires Serving(View(), c) && c < |conns| && conns[c].role == Down
      modifies this
      ensures Dispatched(old(View()), View(), c) && at >= old(at)
      ensures clean ==> (closeSeen <==> old(conns[c].parser.hdr.opcode) == OP_CLOSE)
      ensures old(reports) <= reports
      ensures clean ==> Handled(old(View()), View(), c, ChoiceOf(old(Env())), reports[|old(reports)|..])
      ensures old(conns[c].parser.hdr.opcode) == OP_CLOSE && old(conns[c].peer) == None ==>
              View() == ClosedAtOnce(old(View()), c)
      decreases |Env()|, 6
    {
      hide Good, Serving, Dispatched, Steady;
      ghost var s := View();
      ServingFacts(s, c);
      ServingMore(s, c);
      var hdr := conns[c].parser.hdr;
      if hdr.opcode == OP_PING {
        OnPing(c, hdr);
      } else if hdr.opcode == OP_CLOSE {
        OnClose(c);
      } else if hdr.opcode == OP_ERROR {
        Skip(c);
        DroppedTaken(s, c, None);
      } else if hdr.opcode == OP_DATA {
        ghost var dial, m := OnData(c, hdr);
      } else {
        SteadySelf(s, c);
        Refuse(c, hdr, CODE_UNKNOWN_OPCODE, Text("opcode"), s);
      }
      DispatchedFacts(s, View(), c);
    }

    /** A DATA frame of a client: it is refused, or becomes pending for the upstream the route picks. */
    method OnData(c: nat, hdr: Header) returns (ghost dial: Dial, ghost m: Turn)
      requires Serving(View(), c) && c < |conns| && conns[c].role == Down
      requires hdr == conns[c].parser.hdr && hdr.opcode == OP_DATA
      modifies this
      ensures Dispatched(old(View()), View(), c) && at >= old(at)
      ensures closeSeen == old(closeSeen)
      ensures old(reports) <= reports
      ensures clean ==> DataHandled(old(View()), View(), c, ChoiceOf(old(Env())), dial, reports[|old(reports)|..])
      ensures ChoiceOf(old(Env())).Chosen? ==> Dials(old(View()), old(at), c, ChoiceOf(old(Env())).ep, dial, m, script)
      decreases |Env()|, 5
    {
      hide Good, Serving, Dispatched, Refused, Connected, Dials;
      ghost var s := View();
      dial, m := Reused, Turn(s, at);
      var a := Ask();
      if !a.choice.Chosen? {
        RefuseUnrouted(c, hdr, a.choice, s);
        return;
      }
      ghost var news;
      dial, m, news := Route(c, hdr, a.choice.ep, s, at - 1);
      assert reports[|old(reports)|..] == news;
    }

    /** There is no such route, or none of its members is eligible. */
    method RefuseUnrouted(c: nat, hdr: Header, choice: Choice, ghost s: State)
      requires View() == s && Serving(s, c) && c < |conns| && conns[c].role == Down && !choice.Chosen?
      requires hdr == conns[c].parser.hdr && hdr.opcode == OP_DATA
      modifies this
      ensures Dispatched(s, View(), c) && at >= old(at) && closeSeen == s.closeSeen && reports == old(reports)
      ensures clean ==> forall dial :: DataHandled(s, View(), c, choice, dial, [])
    {
      hide Good, Serving, Dispatched, Steady, Refused;
      ServingFacts(s, c);
      SteadySelf(s, c);
      if choice == NoRoute {
        Refuse(c, hdr, CODE_ROUTE_NOT_FOUND, Text("route not found"), s);
      } else {
        Refuse(c, hdr, CODE_NO_UPSTREAM, Text("no healthy upstream"), s);
      }
    }

    /** The frame goes to the upstream that the client has, or to a new one. */
    method Route(c: nat, hdr: Header, ep: nat, ghost s: State, ghost start: nat)
        returns (ghost dial: Dial, ghost m: Turn, ghost news: seq<Report>)
      requires View() == s && at == start + 1 && Serving(s, c) && c < |conns| && conns[c].role == Down
      requires hdr == conns[c].parser.hdr && hdr.opcode == OP_DATA
      modifies this
      ensures Dispatched(s, View(), c) && at >= old(at)
      ensures closeSeen == s.closeSeen && reports == old(reports) + news
      ensures clean ==> Connected(s, View(), c, ep, dial, news)
      ensures Dials(s, start, c, ep, dial, m, script)
      decreases |Env()|, 5
    {
      hide Good, Serving, Dispatched, Steady, Closes, Free, SendReady, Refused, Routed, Parted, DialOf, OnUpstream;
      ServingFacts(s, c);
      if conns[c].peer.Some? && conns[conns[c].peer.value].ep == Some(ep) && conns[conns[c].peer.value].role == Up {
        Reuse(c, conns[c].peer.value, hdr, ep);
        return Reused, Turn(s, at), [];
      }
      LeavePeer(c, s);
      m := Turn(View(), at);
      dial := DialOf(Env(), tab);
      news := Connect(c, hdr, ep, s);
    }

    /** An upstream of another endpoint is closed, and the client has no peer then. */
    method LeavePeer(c: nat, ghost s: State)
      requires View() == s && Serving(s, c) && c < |conns| && conns[c].role == Down
               && conns[c].parser.hdr.opcode == OP_DATA
      modifies this
      ensures Free(s, View(), c) && c < |conns| && conns[c].parser == old(conns[c].parser) && closeSeen == s.closeSeen
      ensures at >= old(at) && |Env()| <= |old(Env())| && reports == old(reports)
      ensures if s.conns[c].peer.Some? then Closes(s, View(), s.conns[c].peer.value) else View() == s && at == old(at)
    {
      hide Good, Serving, Steady, Closes, Free;
      ServingFacts(s, c);
      if conns[c].peer.Some? {
        var p := conns[c].peer.value;
        CloseConn(p);
        FreeAfterClose(s, View(), c, p);
        FreeFacts(s, View(), c);
        conns := conns[c := conns[c].(peer := None)];
      } else {
        FreeAtOnce(s, c);
      }
    }

    /** The client's upstream is the one picked: the frame goes there. */
    method Reuse(c: nat, p: nat, hdr: Header, ghost ep: nat)
      requires Serving(View(), c) && c < |conns| && conns[c].role == Down
      requires hdr == conns[c].parser.hdr && hdr.opcode == OP_DATA
      requires conns[c].peer == Some(p) && p < |conns| && conns[p].role == Up
      modifies this
      ensures Dispatched(old(View()), View(), c) && at >= old(at)
      ensures closeSeen == old(closeSeen)
      ensures clean && old(conns[p].ep) == Some(ep) ==> Routed(old(View()), View(), c, ep) && conns[c].peer == Some(p)
      ensures reports == old(reports)
      decreases |Env()|, 3
    {
      hide Good, Serving, Dispatched, FrameSent, SendReady, SentVia, Passed;
      ghost var s := View();
      ServingFacts(s, c);
      ServingMore(s, c);
      conns := conns[c := conns[c].(pending := hdr, hasPending := true)];
      ghost var t := View();
      PendForPeer(s, c, t);
      ghost var mid := SendPending(c, p);
      SentUnpaused(t, mid, View(), c, p);
      SentIsDispatched(t, View(), c, p);
      DispatchedVia(s, t, View(), c);
      if clean && s.conns[p].ep == Some(ep) { RoutedAgain(s, t, View(), c, p, ep); }
    }

    /** A new upstream connection to endpoint ep is opened for client c. */
    method Connect(c: nat, hdr: Header, ep: nat, ghost s: State) returns (ghost news: seq<Report>)
      requires Free(s, View(), c) && c < |conns| && hdr == conns[c].parser.hdr
      modifies this
      ensures Dispatched(s, View(), c) && at >= old(at)
      ensures closeSeen == s.closeSeen && reports == old(reports) + news
      ensures clean ==> Connected(s, View(), c, ep, DialOf(old(Env()), old(tab)), news)
      decreases |Env()|, 4
    {
      hide Free, Dispatched, Connected, DialOf;
      DialCases(Env(), tab);
      var a := Ask();
      if a.err != Fine || a.fd in tab {
        GiveUp(c, hdr, ep, false, s);
        news := [Failure(ep)];
      } else {
        news := TakeUp(c, hdr, ep, a.fd, if a.progress then Connecting else Up, s);
      }
    }

    /** Dial failed, or the poller refused the descriptor: the endpoint and the client are told. */
    method GiveUp(c: nat, hdr: Header, ep: nat, dialled: bool, ghost s: State)
      requires Free(s, View(), c) && c < |conns| && hdr == conns[c].parser.hdr
      modifies this
      ensures Dispatched(s, View(), c) && at >= old(at)
      ensures closeSeen == s.closeSeen && reports == old(reports) + [Failure(ep)]
      ensures clean ==> Connected(s, View(), c, ep, if dialled then AdoptFailed else DialFailed, [Failure(ep)])
    {
      hide Good, Serving, Dispatched, Steady, Free, Refused;
      FreeFacts(s, View(), c);
      SteadySeen(s, View(), c);
      reports := reports + [Failure(ep)];
      if dialled {
        Refuse(c, hdr, CODE_UPSTREAM_FAIL, Text("adopt failed"), s);
      } else {
        Refuse(c, hdr, CODE_UPSTREAM_FAIL, Text("dial failed"), s);
      }
    }

    /** The new descriptor is taken in for an upstream of endpoint ep, unless the poller refuses it. */
    method TakeUp(c: nat, hdr: Header, ep: nat, fd: int, role: Role, ghost s: State) returns (ghost news: seq<Report>)
      requires Free(s, View(), c) && c < |conns| && hdr == conns[c].parser.hdr && fd !in tab
               && (role == Up || role == Connecting)
      modifies this
      ensures Dispatched(s, View(), c) && at >= old(at)
      ensures closeSeen == s.closeSeen && reports == old(reports) + news
      ensures var dial := if old(Env()) == [] || old(Env())[0].err != Fine then AdoptFailed
              else Dialed(fd, role == Connecting);
              clean ==> Connected(s, View(), c, ep, dial, news)
      decreases |Env()|, 4, 0
    {
      hide Free, Dispatched, Connected, Adopted;
      ghost var t := View();
      var u := Adopt(fd, role, Some(ep), Some(c));
      if u == None {
        FreeBounced(s, t, c);
        GiveUp(c, hdr, ep, true, s);
        news := [Failure(ep)];
      } else {
        Join(c, hdr, u.value, fd, role, ep, s, t);
        news := [];
      }
    }

    /** Client and new upstream become peers, and the frame pending; it goes out once the upstream is established. */
    method Join(c: nat, hdr: Header, u: nat, ghost fd: int, role: Role, ghost ep: nat, ghost s: State, ghost t: State)
      requires Free(s, t, c) && c < |t.conns| && hdr == t.conns[c].parser.hdr && u == |t.conns|
               && (role == Up || role == Connecting)
      requires fd !in t.tab && View() == Adopted(t, fd, role, Some(ep), Some(c))
      modifies this
      ensures Dispatched(s, View(), c) && at >= old(at)
      ensures closeSeen == s.closeSeen
      ensures clean ==> Connected(s, View(), c, ep, Dialed(fd, role == Connecting), [])
      ensures reports == old(reports)
      decreases |Env()|, 3
    {
      hide Good, Serving, Dispatched, Steady, Free, Paired, SendReady, WaitsFor, Routed, OnUpstream;
      ghost var p := Paired(View(), c, u, hdr);
      PairedFacts(s, t, View(), p, c, u, fd, role, ep);
      FreeFacts(s, t, c);
      SteadySeen(s, t, c);
      if t.clean { FreeWaits(s, t, c, fd, role, ep); }
      Couple(c, u, hdr);
      if role == Up {
        SendJoined(c, u, fd, ep, s, p);
      } else if clean {
        RoutedLater(s, p, c, u, ep);
      }
    }

    method Couple(c: nat, u: nat, hdr: Header)
      requires c < |conns| && u < |conns|
      modifies this`conns
      ensures View() == Paired(old(View()), c, u, hdr)
    {
      conns := conns[u := conns[u].(peer := Some(c))];
      conns := conns[c := conns[c].(peer := Some(u), pending := hdr, hasPending := true)];
    }

    /** The new upstream is established already, and the frame is sent at once. */
    method SendJoined(c: nat, u: nat, ghost fd: int, ghost ep: nat, ghost s: State, ghost p: State)
      requires View() == p && SendReady(p, c, u) && c < |p.conns| && u < |p.conns| && !p.conns[c].paused
      requires c < |s.conns| <= |p.conns| && p.cfg == s.cfg && p.cur == s.cur == c && p.closeSeen == s.closeSeen
      requires p.conns[c].role == s.conns[c].role && (p.clean ==> s.clean)
      requires Load(p.conns[c]) <= Load(s.conns[c]) && SameSource(s, p, c)
      requires p.clean ==> WaitsFor(s, p, c, u, ep) && p.conns[u].role == Up && p.conns[u].fd == fd
      modifies this
      ensures Dispatched(s, View(), c) && at >= old(at) && closeSeen == s.closeSeen && reports == old(reports)
      ensures clean ==> Routed(s, View(), c, ep) && OnUpstream(View(), c, fd, Up)
      decreases |Env()|, 3, 0
    {
      hide Good, Dispatched, SendReady, SentVia, FrameSent, Passed, WaitsFor, Routed, OnUpstream, SameSource;
      ghost var mid := SendPending(c, u);
      SentUnpaused(p, mid, View(), c, u);
      SentIsDispatched(p, View(), c, u);
      DispatchedVia(s, p, View(), c);
      SentClean(p, View(), c);
      if clean { RoutedAtOnce(s, p, View(), c, u, ep); }
    }

    /** Takes a connection into the table; when the poller refuses it, only a slot was taken and given back. */
    method Adopt(fd: int, role: Role, ep: Option<nat>, ghost origin: Option<nat>) returns (u: Option<nat>)
      modifies this
      ensures at >= old(at)
      ensures Env() == (if old(Env()) == [] then [] else old(Env())[1..])
              && (u.Some? <==> old(Env()) != [] && old(Env())[0].err == Fine)
      ensures u == None ==> View() == old(View()).(slab := old(slab.AfterGet().AfterPut(slab.Next())))
      ensures u.Some? ==> u.value == |old(conns)| && View() == Adopted(old(View()), fd, role, ep, origin)
      ensures u.Some? ==> fd in interest && interest[fd] == Interest(role != Connecting, role == Connecting)
      ensures reports == old(reports)
    {
      hide Entered, Adopted;
      AdoptedIsEntered(View(), fd, role, ep, origin);
      var slot := slab.Next();
      slab := slab.AfterGet();
      var a := Ask();
      if a.err != Fine {
        slab := slab.AfterPut(slot);
        return None;
      }
      u := Some(|conns|);
      Enter(Conn(fd, role, Live(slot, []), FRESH, ep, None, ZERO_HEADER, false, [], false), origin);
    }

    /** A connection joins the table, the poller and, when it is an established upstream, its endpoint's count. */
    method Enter(k: Conn, ghost origin: Option<nat>)
      modifies this`tab, this`interest, this`conns, this`hist, this`active
      ensures View() == Entered(old(View()), k, origin)
      ensures k.fd in interest && interest[k.fd] == Interest(k.role != Connecting, k.role == Connecting)
    {
      tab := tab[k.fd := |conns|];
      interest := interest[k.fd := if k.role == Connecting then Interest(false, true) else Interest(true, false)];
      conns := conns + [k];
      hist := hist + [NO_HIST.(origin := origin)];
      if k.ep.Some? && k.role != Connecting { active := active[k.ep.value := ActiveOf(active, k.ep.value) + 1]; }
    }

    // ---- Events ----

    /** A connect under way has ended: the client is told it failed, or its pending frame is sent. */
    method FinishConnect(c: nat)
      requires Idle(View()) && Open(View(), c) && c < |conns| && conns[c].role == Connecting
      modifies this
      ensures Ended(View()) && at >= old(at)
      ensures Finishes(old(View()), View(), c, Failing(old(Env())), old(reports), reports)
    {
      hide Idle, Ended, Open, Finishes;
      ghost var s, was := View(), reports;
      var a := Ask();
      if a.err == Hard { FinishBadly(c, s, was); } else { FinishWell(c, s, was); }
    }

    method FinishBadly(c: nat, ghost s: State, ghost was: seq<Report>)
      requires View() == s && reports == was && Idle(s) && Open(s, c) && c < |conns| && conns[c].role == Connecting
      modifies this
      ensures Ended(View()) && at >= old(at) && Finishes(s, View(), c, true, was, reports)
    {
      hide Good, Idle, Ended, ConnectFailed, Finishes;
      IdleFacts(s);
      ConnectingPeer(s, c);
      reports := reports + [Failure(conns[c].ep.value)];
      FailConnect(c);
      FinishesBadly(s, View(), c, was, reports);
    }

    method FinishWell(c: nat, ghost s: State, ghost was: seq<Report>)
      requires View() == s && reports == was && Idle(s) && Open(s, c) && c < |conns| && conns[c].role == Connecting
      modifies this
      ensures Ended(View()) && at >= old(at) && Finishes(s, View(), c, false, was, reports)
    {
      hide Good, Idle, Ended, ConnectDone, Finishes;
      IdleFacts(s);
      ConnectingPeer(s, c);
      if conns[c].peer.Some? && conns[conns[c].peer.value].hasPending {
        ServeConnect(c, conns[c].peer.value, s);
      } else {
        reports := reports + [Success(conns[c].ep.value)];
        EstablishAlone(c, s);
      }
      FinishesWell(s, View(), c, was, reports);
    }

    /** The upstream is established, and nobody waits for it. */
    method EstablishAlone(c: nat, ghost s: State)
      requires View() == s && Idle(s) && Open(s, c) && c < |conns| && conns[c].role == Connecting && conns[c].ep.Some?
      requires conns[c].peer.Some? && conns[c].peer.value < |conns| ==> !conns[conns[c].peer.value].hasPending
      modifies this`conns, this`interest, this`active
      ensures Ended(View()) && ConnectDone(s, View(), c)
    {
      hide Good, Idle, Ended, ConnectDone, Established;
      EstablishedAlone(s, c);
      DoneAlone(s, c);
      Establish(c);
      IdleFacts(View());
    }

    /** The upstream is established, and its client's pending frame is sent. */
    method ServeConnect(c: nat, p: nat, ghost s: State)
      requires View() == s && Idle(s) && Open(s, c) && c < |conns| && conns[c].role == Connecting && conns[c].ep.Some?
      requires conns[c].peer == Some(p) && p < |conns| && conns[p].hasPending
      modifies this
      ensures Ended(View()) && at >= old(at) && ConnectDone(s, View(), c) && s.stuck <= stuck
      ensures !s.conns[p].paused ==> reports == old(reports) + [Success(s.conns[c].ep.value)]
    {
      hide Good, Idle, Ended, SendReady, SentVia, Turned, Attending, ConnectDone, Established, Watched, Short;
      reports := reports + [Success(conns[c].ep.value)];
      Attend(c, p, s);
      ghost var mid, end := ServePending(p, c);
      DoneServed(s, mid, end, View(), c, p);
    }

    /** The upstream is established, and it is its client's turn. */
    method Attend(c: nat, ghost p: nat, ghost s: State)
      requires View() == s && Idle(s) && Open(s, c) && c < |conns| && conns[c].role == Connecting && conns[c].ep.Some?
      requires conns[c].peer == Some(p) && p < |conns| && conns[p].hasPending
      modifies this`conns, this`interest, this`active, this`cur
      ensures View() == Established(s.(cur := p), c) && SendReady(View(), p, c)
      ensures p < |conns| && conns[p] == s.conns[p]
      ensures !conns[p].paused && Watched(View()) && Open(View(), p) ==> Short(conns[p], cfg)
    {
      hide Good, Idle, Ended, SendReady, Turned, Attending, Established;
      AttendPeer(s, c, p);
      cur := p;
      EstablishedServed(View(), c, p);
      Establish(c);
    }

    /** The pending frame is sent, and the client is not served any longer. */
    method ServePending(p: nat, c: nat) returns (ghost mid: State, ghost end: State)
      requires SendReady(View(), p, c) && p < |conns|
      requires !conns[p].paused && Watched(View()) && Open(View(), p) ==> Short(conns[p], cfg)
      modifies this
      ensures Ended(View()) && at >= old(at)
      ensures SentVia(old(View()), mid, end, p, c) && View() == end.(cur := cur)
      ensures !old(conns[p].paused) ==> reports == old(reports)
    {
      hide Good, Ended, SendReady, SentVia, Watched, Short;
      ghost var e := View();
      mid := SendPending(p, c);
      end := View();
      if !e.conns[p].paused { EndServing(c, p, e, mid); }
    }

    /** A client that was not paused need not be served any longer. */
    ghost method EndServing(c: nat, p: nat, e: State, mid: State)
      requires SendReady(e, p, c) && SentVia(e, mid, View(), p, c) && cur == e.cur && p < |e.conns|
               && !e.conns[p].paused
      requires Watched(e) && Open(e, p) ==> Short(e.conns[p], e.cfg)
      modifies this`cur
      ensures Ended(View()) && View() == old(View()).(cur := cur) && !Resumes(mid, p)
    {
      hide Good, Ended, SendReady, SentVia;
      SentUnpaused(e, mid, View(), p, c);
      if panicked {
        SentPanics(e, mid, p, c);
      } else {
        SentRests(e, View(), p, c);
        cur := -1;
      }
    }

    method Establish(c: nat)
      requires c < |conns| && conns[c].ep.Some?
      modifies this`conns, this`interest, this`active
      ensures View() == Established(old(View()), c)
      ensures c < |conns| && (conns[c].fd in interest ==> interest[conns[c].fd] == Interest(true, true))
    {
      var k := conns[c];
      conns := conns[c := k.(role := Up)];
      Mod(k.fd, Interest(true, true));
      active := active[k.ep.value := ActiveOf(active, k.ep.value) + 1];
    }

    /** The upstream is closed; its client gets an ERROR and loses its pending frame. */
    method FailConnect(c: nat)
      requires Idle(View()) && Open(View(), c) && c < |conns| && conns[c].role == Connecting
      modifies this
      ensures Ended(View()) && at >= old(at)
      ensures ConnectFailed(old(View()), View(), c)
      ensures reports == old(reports) && old(stuck) <= stuck
    {
      hide Good, Idle, Ended, Closes, Replies, Orphan, Bereft, Turned, Attending;
      ghost var s0 := View();
      IdleFacts(s0);
      ConnectingPeer(s0, c);
      var peer := conns[c].peer;
      NotListener(s0, c);
      if peer.Some? {
        AttendPeer(s0, c, peer.value);
        AttendingFacts(s0.(cur := peer.value), peer.value);
        cur := peer.value;
      }
      ghost var s := View();
      CloseConn(c);
      ghost var t := View();
      if peer.Some? {
        OrphanAfterClose(s, t, c, peer.value);
        ghost var u := Bereave(peer.value);
        BereftOf(s0, s, t, u, View(), c, peer.value);
      } else {
        IdleCloses(s, t, c);
        IdleFacts(t);
        ClosedFacts(s, t, c);
      }
    }

    /** u is the state before the client is left alone. */
    method Bereave(p: nat) returns (ghost u: State)
      requires Orphan(View(), p)
      modifies this
      ensures Ended(View()) && at >= old(at)
      ensures Bereft(old(View()), u, p) && View() == u.(stuck := stuck, cur := cur) && u.stuck <= stuck
      ensures !u.panicked && p < |u.conns| && u.conns[p].paused ==> p in stuck
      ensures reports == old(reports)
    {
      hide Good, Idle, Ended, Replies, Orphan, Bereft, Turned, Attending, Finishing;
      ghost var s := View();
      OrphanFacts(s, p);
      ReplyError(p, conns[p].pending, CODE_UPSTREAM_FAIL, Text("upstream connect failed"));
      ghost var t := View();
      OrphanAfterReply(s, t, p);
      u := Abandon(p, s);
    }

    /** The end of finishConnect for a client that has been told. */
    method Abandon(p: nat, ghost s: State) returns (ghost u: State)
      requires Orphan(s, p) && Orphan(View(), p) && Replies(s, View(), p)
               && Told(s, View(), p, ConnectNotice(s.conns[p].pending))
      modifies this`conns, this`hist, this`panicked, this`stuck, this`cur
      ensures Ended(View()) && Bereft(s, u, p) && View() == u.(stuck := stuck, cur := cur) && u.stuck <= stuck
      ensures !u.panicked && p < |u.conns| && u.conns[p].paused ==> p in stuck
    {
      hide Good, Idle, Ended, Replies, Orphan, Bereft, Turned, Attending, Finishing, Told;
      ghost var t := View();
      DropPending(p);
      Unpair(p);
      u := View();
      if panicked {
        BereftPanic(s, t, u, p);
        return;
      }
      BereftAfter(s, t, u, p);
      LeaveAlone(p);
    }

    /** The client has no peer any more already. */
    method Unpair(p: nat)
      requires p < |conns| && conns[p].peer == None
      modifies this`conns
      ensures View() == old(View())
    {
      assert conns[p := conns[p].(peer := None)] == conns;
      conns := conns[p := conns[p].(peer := None)];
    }

    /** The client is not served any longer; if it is paused it is stuck. */
    ghost method LeaveAlone(p: nat)
      requires Finishing(View(), p) && p < |conns|
      modifies this`stuck, this`cur
      ensures Ended(View()) && View() == old(View()).(stuck := stuck, cur := cur) && old(stuck) <= stuck
              && (conns[p].paused ==> p in stuck)
    {
      hide Good, Ended, Finishing;
      FinishingEnds(View(), p);
      if conns[p].paused { stuck := stuck + {p}; }
      cur := -1;
    }

    /** The frame that was pending, if any, is dropped. */
    method DropPending(p: nat)
      requires Orphan(View(), p)
      modifies this`conns, this`hist, this`panicked
      ensures var t := old(View());
              && p < |t.conns| == |t.hist| && (t.conns[p].hasPending && t.conns[p].ring.Live? ==> HeadReady(t, p))
              && (panicked ==> t.conns[p].hasPending && View() == Dropped(t, p, None) && Ended(View()))
              && (!panicked ==> Finishing(View(), p))
              && (!panicked ==> View() == if t.conns[p].hasPending then Unpended(Dropped(t, p, None), p) else t)
      ensures p < |conns| && conns[p].peer == None
    {
      hide Good, Idle, Ended, Orphan, Turned, Attending, Finishing, HeadReady, Dropped, Unpended;
      ghost var t := View();
      OrphanFacts(t, p);
      if conns[p].hasPending { DropHeld(p, t); }
    }

    method DropHeld(p: nat, ghost t: State)
      requires View() == t && Orphan(t, p) && p < |conns| == |hist| && conns[p].hasPending
      requires conns[p].ring.Live? ==> HeadReady(t, p)
      modifies this`conns, this`hist, this`panicked
      ensures panicked ==> View() == Dropped(t, p, None) && Ended(View())
      ensures !panicked ==> View() == Unpended(Dropped(t, p, None), p) && Finishing(View(), p)
      ensures p < |conns| && conns[p].peer == None
    {
      OrphanFacts(t, p);
      OrphanDrops(t, p);
      hide Good, Idle, Ended, Orphan, Turned, Attending, Finishing, HeadReady, Dropped, Unpended;
      ConsumePayload(p, None);
      if !panicked { Unpend(p); }
    }

    method Unpend(p: nat)
      requires p < |conns|
      modifies this`conns
      ensures View() == Unpended(old(View()), p)
    {
      conns := conns[p := conns[p].(hasPending := false)];
    }

    /** Takes in clients until the listener has no more. */
    method AcceptLoop() returns (ghost turns: seq<Turn>)
      requires Idle(View())
      modifies this
      ensures Ended(View()) && at >= old(at)
      ensures AllGuests(turns, old(View()), old(at), View(), at, script)
      ensures Welcomed(old(Env()), old(tab)) && FatalGuest(old(View()), old(Env())) ==> Perished(old(View()), View())
      ensures old(stuck) <= stuck
    {
      hide Good, Idle, Ended, TookIn, Welcomed, NoGuest, FatalGuest, GuestsSoFar, AllGuests;
      ghost var s, start := View(), at;
      var more := true;
      IdleFacts(s);
      turns := [];
      NobodySoFar(s, start, script);
      while more
        invariant at >= start && Ended(View()) && (more ==> Idle(View()))
        invariant old(stuck) <= stuck
        invariant if more then GuestsSoFar(turns, s, start, View(), at, script)
                  else AllGuests(turns, s, start, View(), at, script)
        invariant turns == [] ==> at == start && View() == s && more
        invariant turns != [] && Welcomed(old(Env()), old(tab)) && FatalGuest(s, old(Env())) ==>
                  !more && Perished(s, View())
        decreases |Env()|, more
      {
        ghost var t, pos := View(), at;
        more := AcceptOne();
        if turns == [] && Welcomed(old(Env()), old(tab)) && FatalGuest(s, old(Env())) {
          FatalTook(s, View(), old(Env()));
        }
        GuestTaken(turns, s, start, t, pos, View(), at, script, more);
        turns := turns + [Turn(t, pos)];
      }
    }

    /** One accept: a new connection is read at once. */
    method AcceptOne() returns (more: bool)
      requires Idle(View())
      modifies this
      ensures Ended(View()) && at >= old(at)
      ensures more ==> Idle(View()) && |Env()| < |old(Env())|
      ensures TookIn(old(View()), View(), old(Env()))
      ensures !more ==> panicked || NoGuest(old(Env()), old(tab))
      ensures more ==> !panicked
      ensures old(stuck) <= stuck
    {
      hide Good, Idle, Ended, TookIn;
      ghost var s := View();
      EndedAlready(s);
      NobodyCame(s, Env());
      var a := Ask();
      if a.err != Fine || a.fd in tab { return false; }
      more := Invite(a.fd, s, old(Env()));
    }

    /** env is what the first answer came from. */
    method Invite(fd: int, ghost s: State, ghost env: seq<Answer>) returns (more: bool)
      requires View() == s && Idle(s) && !NoGuest(env, s.tab) && fd == env[0].fd && Env() == env[1..]
      modifies this
      ensures Ended(View()) && at >= old(at) && TookIn(s, View(), env)
      ensures (more ==> Idle(View())) && more == !panicked && old(stuck) <= stuck
    {
      hide Good, Idle, Ended, TookIn, Admitted;
      more := Admit(fd);
      GuestAdmitted(env, env[1..], s, View());
    }

    /** The accepted descriptor is taken in, unless the poller refuses it, and read. */
    method Admit(fd: int) returns (more: bool)
      requires Idle(View()) && fd !in tab
      modifies this
      ensures Ended(View()) && at >= old(at) && (more ==> Idle(View())) && more == !panicked
      ensures Admitted(old(View()), View(), fd, old(Env()))
      ensures old(stuck) <= stuck
    {
      hide Good, Idle, Ended, Adopted, ReadOn, Offered, Fatal;
      ghost var s := View();
      var u := Adopt(fd, Down, None, None);
      if u.Some? {
        IdleAdopted(s, fd);
        Greet(u.value, fd, s);
      } else {
        IdleBounced(s);
        IdleFacts(View());
      }
      more := !panicked;
      if more { EndedIsIdle(View()); }
    }

    /** A new client is read. */
    method Greet(u: nat, ghost fd: int, ghost s: State)
      requires Idle(s) && fd !in s.tab && View() == Adopted(s, fd, Down, None, None) && u == |s.conns|
      modifies this
      ensures Ended(View()) && at >= old(at) && |conns| > u
      ensures ReadOn(old(View()), View(), u, Offered(old(View()), u, old(Env())))
      ensures Fatal(old(View()), u, old(Env())) ==> Perished(old(View()), View())
      ensures old(stuck) <= stuck
    {
      hide Good, Idle, Ended, Settled, ReadOn, Adopted, Offered, Fatal;
      IdleAdopted(s, fd);
      ghost var t := View();
      ghost var turns := ReadLoop(u);
      ReadOnShape(t, View(), u);
    }

    /** One event of the poller. */
    method Handle(fd: int, read: bool, write: bool, error: bool, hangup: bool)
      requires Idle(View())
      modifies this
      ensures Ended(View()) && at >= old(at)
      ensures fd !in old(tab) ==> View() == old(View())
      ensures fd in old(tab) && old(tab)[fd] == 0 && !read ==> View() == old(View())
      ensures (fd in old(tab) && 0 < old(tab)[fd] < |old(conns)| && (error || hangup) && !read && !write
               && (error ==> old(conns)[old(tab)[fd]].role != Connecting)) ==> !Open(View(), old(tab)[fd])
      ensures (fd in old(tab) && 0 < old(tab)[fd] < |old(conns)| && (read || write)
               && (old(conns)[old(tab)[fd]].role == Connecting ==> !write && !error)) ==>
                exists mid :: Moved(old(View()), mid, View(), old(tab)[fd], read, write, old(Env()))
      ensures old(stuck) <= stuck
      ensures fd == cfg.listenFd && read ==>
              exists turns: seq<Turn> :: AllGuests(turns, old(View()), old(at), View(), at, script)
      ensures fd == cfg.listenFd && read && Welcomed(old(Env()), old(tab)) && FatalGuest(old(View()), old(Env())) ==>
              Perished(old(View()), View())
      ensures (fd in old(tab) && old(tab)[fd] < |old(conns)| && old(conns)[old(tab)[fd]].role == Connecting
              && (write || error)) ==>
                if Failing(old(Env())) then ConnectFailed(old(View()), View(), old(tab)[fd])
                else ConnectDone(old(View()), View(), old(tab)[fd])
    {
      hide Good, Idle, Ended, Closes, Moved, ConnectFailed, ConnectDone, FatalGuest, Welcomed, AllGuests;
      ghost var s := View();
      IdleFacts(s);
      ListenerListed(s);
      if fd !in tab { return; }
      TableFacts(s, fd);
      var c := tab[fd];
      if conns[c].role == Listen {
        if read { ghost var turns := AcceptLoop(); }
        return;
      }
      if conns[c].role == Connecting && (write || error) {
        FinishConnect(c);
        return;
      }
      if (error || hangup) && !read && !write {
        CloseConn(c);
        IdleCloses(s, View(), c);
        IdleFacts(View());
        ClosedFacts(s, View(), c);
        return;
      }
      ghost var mid := Transfer(c, read, write);
    }

    /** Readiness of an open connection: first what waits is written, then what came is read. */
    method Transfer(c: nat, read: bool, write: bool) returns (ghost mid: State)
      requires Idle(View()) && 0 < c < |conns| && Open(View(), c) && (write ==> conns[c].role != Connecting)
      modifies this
      ensures Ended(View()) && at >= old(at)
      ensures Moved(old(View()), mid, View(), c, read, write, old(Env()))
      ensures old(stuck) <= stuck
    {
      hide Good, Idle, Ended, Flushes, Drew, ReadOn, Offered, Settled;
      ghost var s := View();
      IdleFacts(s);
      if write {
        FlushRemain(c);
        IdleFlushes(s, View(), c, []);
        IdleFacts(View());
      }
      mid := View();
      if c < |mid.conns| && Drew(s, mid, c, Takes(old(Env()), |s.conns[c].writeRemain|)) {
        DrewPaused(s, mid, c, Takes(old(Env()), |s.conns[c].writeRemain|));
      }
      if read && !conns[c].paused { ghost var turns := ReadLoop(c); }
    }

    /** The connections in the table, in any order. */
    method All() returns (cs: seq<nat>)
      requires forall fd :: fd in tab ==> tab[fd] < |conns| && conns[tab[fd]].fd == fd
      ensures forall c :: c in cs <==> Open(View(), c)
    {
      cs := [];
      var rest := tab.Keys;
      while rest != {}
        invariant rest <= tab.Keys
        invariant forall c :: c in cs <==> Open(View(), c) && conns[c].fd !in rest
        decreases |rest|
      {
        var fd := AnyOf(rest);
        rest := rest - {fd};
        ghost var before := cs;
        cs := cs + [tab[fd]];
        assert forall c :: c in cs <==> c in before || c == tab[fd];
      }
    }

    /** Closes those of the open connections that are to go, never the listener. */
    method CloseAll(cs: seq<nat>, goes: set<nat>)
      requires Good(View()) && forall i :: 0 <= i < |cs| ==> cs[i] < |conns|
      modifies this
      ensures Good(View()) && at >= old(at) && |conns| == |old(conns)|
      ensures Idle(old(View())) ==> Idle(View())
      ensures forall c :: 0 < c && c in cs && c in goes ==> !Open(View(), c)
      ensures forall x :: Open(View(), x) ==> old(Open(View(), x))
      ensures old(stuck) <= stuck
    {
      hide Good, Idle, Closes;
      var i := 0;
      while i < |cs|
        invariant 0 <= i <= |cs| && Good(View()) && at >= old(at) && |conns| == |old(conns)|
        invariant Idle(old(View())) ==> Idle(View())
        invariant forall j :: 0 <= j < i && 0 < cs[j] && cs[j] in goes ==> !Open(View(), cs[j])
        invariant forall x :: Open(View(), x) ==> old(Open(View(), x))
        invariant old(stuck) <= stuck
      {
        var c := cs[i];
        ListenerFacts(View(), c);
        if conns[c].role != Listen && c in goes {
          ghost var s := View();
          CloseConn(c);
          ClosesOthers(s, View(), c);
          ClosesGood(s, View(), c);
          if Idle(s) { IdleCloses(s, View(), c); }
        }
        i := i + 1;
      }
    }

    /** Closes the connections found idle. */
    method SweepIdle(idle: set<nat>)
      requires Idle(View())
      modifies this
      ensures Idle(View()) && at >= old(at)
      ensures forall c :: 0 < c && c in idle && old(Open(View(), c)) ==> !Open(View(), c)
      ensures old(stuck) <= stuck
    {
      hide Good, Idle;
      IdleFacts(View());
      TableNames(View());
      var cs := All();
      assert forall i :: 0 <= i < |cs| ==> cs[i] in cs;
      CloseAll(cs, idle);
    }

    /** Closes every connection; also after a panic. */
    method Shutdown()
      requires Good(View())
      modifies this
      ensures Good(View()) && tab == map[cfg.listenFd := 0]
      ensures slab.InUse() == 0 && forall e: nat :: ActiveOf(active, e) == 0
    {
      hide Good;
      TableNames(View());
      var cs := All();
      assert forall i :: 0 <= i < |cs| ==> cs[i] in cs;
      ghost var s := View();
      CloseAll(cs, set c | c in cs);
      forall c | 0 < c < |conns| ensures !Open(View(), c) {
        assert Open(s, c) ==> c in cs;
      }
      NothingLeft(View());
    }

    constructor (cfg: Config, slab: SlabState, script: seq<Answer>)
      requires cfg.cap >= 2 && slab.Valid() && slab.InUse() == 0
      ensures View() == Fresh(cfg, slab) && Idle(View()) && Env() == script
    {
      this.cfg := cfg;
      this.script, at := script, 0;
      tab := map[cfg.listenFd := 0];
      conns := [Conn(cfg.listenFd, Listen, Nil, FRESH, None, None, ZERO_HEADER, false, [], false)];
      this.slab := slab;
      active, outBytes, panicked := map[], 0, false;
      interest := map[cfg.listenFd := Interest(true, false)];
      hist, clean, closeSeen, cur := [NO_HIST], true, false, -1;
      robbed, choked, stuck, reports := false, false, {}, [];
      new;
      FreshIsIdle(cfg, slab);
    }

    /** Any sequence of events and sweeps, cut short only by a panic. */
    method Serve(happenings: seq<Happening>)
      requires Idle(View())
      modifies this
      ensures Ended(View())
      ensures clean && !choked ==> (panicked <==> closeSeen)
      ensures old(stuck) <= stuck
    {
      hide Good, Idle, Ended;
      IdleFacts(View());
      var i := 0;
      while i < |happenings| && !panicked
        invariant 0 <= i <= |happenings|
        invariant Ended(View()) && old(stuck) <= stuck
        decreases |happenings| - i
      {
        EndedIsIdle(View());
        match happenings[i] {
          case Ready(fd, read, write, error, hangup) =>
            Handle(fd, read, write, error, hangup);
          case Sweep(idle) =>
            SweepIdle(idle);
            IdleFacts(View());
        }
        i := i + 1;
      }
      EndedPanics(View());
    }
  }

  /** A whole run: a fresh reactor serves, and shuts down however the serving ended. */
  method Run(cfg: Config, slab: SlabState, script: seq<Answer>, happenings: seq<Happening>) returns (r: Reactor)
    requires cfg.cap >= 2 && slab.Valid() && slab.InUse() == 0
    ensures fresh(r) && Good(r.View()) && r.tab == map[cfg.listenFd := 0]
    ensures r.slab.InUse() == 0 && forall e: nat :: ActiveOf(r.active, e) == 0
  {
    r := new Reactor(cfg, slab, script);
    r.Serve(happenings);
    r.Shutdown();
  }

  // ---- A run that panics ----

  /** A client is accepted on fd, and the first thing it sends is CLOSE. */
  function Farewell(fd: int): seq<Answer> {
    [NO_ANSWER.(err := Fine, fd := fd), NO_ANSWER.(err := Fine),
     NO_ANSWER.(err := Fine, data := Encode(NewHeader(OP_CLOSE, 0, 0, 0, 0)))]
  }

  lemma FarewellIsFatal(cfg: Config, slab: SlabState, fd: int)
    requires HEADER_SIZE < cfg.cap && 0 < cfg.high && fd != cfg.listenFd
    ensures var s := Fresh(cfg, slab);
            Welcomed(Farewell(fd), s.tab) && FatalGuest(s, Farewell(fd))
  {
    var s, h := Fresh(cfg, slab), NewHeader(OP_CLOSE, 0, 0, 0, 0);
    FarewellAnswers(fd);
    hide Adopted, Fresh, NextOn, Encode, NewHeader, Validate, Farewell;
    FirstClient(cfg, slab, fd);
    hide Fatal, Closing, Room, Readable;
    CloseIsFatal(Adopted(s, fd, Down, None, None), 1, Farewell(fd)[2..]);
  }

  lemma CloseIsFatal(a: State, c: nat, env: seq<Answer>)
    requires a.clean && c < |a.conns| == |a.hist| && HEADER_SIZE < a.cfg.cap && 0 < a.cfg.high
    requires a.conns[c].role == Down && a.conns[c].peer == None && !a.conns[c].hasPending
    requires a.conns[c].ring.Live? && a.conns[c].ring.data == [] && a.conns[c].parser == FRESH
    requires env != [] && env[0].err == Fine && env[0].data == Encode(NewHeader(OP_CLOSE, 0, 0, 0, 0))
    ensures Fatal(a, c, env)
  {
    FarewellParsed(Limit(a.cfg.maxPayload));
    hide NextOn, Encode, NewHeader;
    assert [] + env[0].data == env[0].data;
  }

  lemma FarewellAnswers(fd: int)
    ensures var env := Farewell(fd);
            && |env| == 3 && env[0].err == Fine && env[0].fd == fd && env[1].err == Fine && |env[2..]| == 1
            && env[2..][0].err == Fine && env[2..][0].data == Encode(NewHeader(OP_CLOSE, 0, 0, 0, 0))
  {
    hide Encode, NewHeader;
  }

  lemma FirstClient(cfg: Config, slab: SlabState, fd: int)
    ensures fd != cfg.listenFd ==> fd !in Fresh(cfg, slab).tab
    ensures Fresh(cfg, slab).cfg == cfg
    ensures var a := Adopted(Fresh(cfg, slab), fd, Down, None, None);
            && |Fresh(cfg, slab).conns| == 1 && |a.conns| == |a.hist| == 2 && a.clean && a.cfg == cfg
            && var k := a.conns[1];
               k.role == Down && k.peer == None && !k.hasPending && k.ring.Live? && k.ring.data == []
                 && k.parser == FRESH
  {}

  lemma FarewellParsed(limit: uint32)
    ensures var h := NewHeader(OP_CLOSE, 0, 0, 0, 0);
            NextOn(FRESH, Encode(h), limit) == Step(ParserState(true, h), HEADER_SIZE, Complete) && h.opcode == OP_CLOSE
  {
    var h := NewHeader(OP_CLOSE, 0, 0, 0, 0);
    HeaderParsed(h, [], limit);
    assert Encode(h) + [] == Encode(h);
  }

  /** No write fails or blocks, and the reactor panics all the same: its only client has said goodbye. */
  method RunOfOneClose(cfg: Config, slab: SlabState, fd: int) returns (r: Reactor)
    requires HEADER_SIZE < cfg.cap && 0 < cfg.high && fd != cfg.listenFd && slab.Valid() && slab.InUse() == 0
    ensures fresh(r) && Ended(r.View()) && r.panicked && r.clean && r.closeSeen && !r.choked
  {
    r := new Reactor(cfg, slab, Farewell(fd));
    FarewellIsFatal(cfg, slab, fd);
    hide Good, Idle, Ended, Welcomed, FatalGuest, Fresh, Farewell;
    r.Handle(cfg.listenFd, true, false, false, false);
  }
}
