// Endpoint health (internal/upstream/state.go), one atomic step per method.
module Upstream {

  const WRAP := 0x1_0000_0000_0000_0000   // the counters are uint64

  /** A threshold, or a counter's value. */
  type Count = n: nat | n < WRAP

  datatype State = Healthy | Degraded | Ejected | Probing | Down

  /** The part of an endpoint that decides its eligibility. */
  datatype Health = Health(state: State, fails: nat, successes: nat) {
    predicate Eligible() {
      state == Healthy || state == Degraded || state == Probing
    }
  }

  const NEW := Health(Healthy, 0, 0)

  datatype Event = Eject | Restore | Fail(threshold: nat) | Success(threshold: nat)

  predicate Restorable(h: Health) {
    h.state == Ejected || h.state == Down
  }

  function Next(h: Health, e: Event): Health {
    match e
    case Eject => h.(state := Ejected)
    case Restore => if Restorable(h) then Health(Probing, 0, 0) else h
    case Fail(t) =>
      var n := (h.fails + 1) % WRAP;
      var state :=
        if h.state == Ejected then Ejected
        else if n >= t then Down
        else if n >= t / 2 && t >= 2 then Degraded
        else h.state;
      Health(state, n, 0)
    case Success(t) =>
      var n := (h.successes + 1) % WRAP;
      var state :=
        if h.state == Ejected || h.state == Healthy then h.state
        else if n >= t then Healthy
        else Probing;
      Health(state, 0, n)
  }

  class Endpoint {
    const weight: int
    var state: State
    var fails: nat
    var successes: nat
    var reason: string

    constructor (weight: int)
      ensures this.weight == (if weight <= 0 then 1 else weight)
      ensures View() == NEW && reason == ""
    {
      this.weight := if weight <= 0 then 1 else weight;
      state, fails, successes, reason := Healthy, 0, 0, "";
    }

    ghost function View(): Health
      reads this
    {
      Health(state, fails, successes)
    }

    predicate Eligible()
      reads this
      ensures Eligible() <==> View().Eligible()
    {
      state == Healthy || state == Degraded || state == Probing
    }

    method SetState(s: State, why: string)
      modifies this`state, this`reason
      ensures state == s && reason == why
    {
      state, reason := s, why;
    }

    method Eject(why: string) returns (ok: bool)
      modifies this`state, this`reason
      ensures ok <==> old(state) != Ejected
      ensures View() == Next(old(View()), Event.Eject)
      ensures reason == if ok then why else old(reason)
    {
      if state == Ejected { return false; }
      SetState(Ejected, why);
      return true;
    }

    method Restore() returns (ok: bool)
      modifies this`state, this`fails, this`successes, this`reason
      ensures ok <==> Restorable(old(View()))
      ensures View() == Next(old(View()), Event.Restore)
      ensures reason == if ok then "manual restore" else old(reason)
    {
      if state != Ejected && state != Down { return false; }
      fails := 0;
      successes := 0;
      SetState(Probing, "manual restore");
      return true;
    }

    method RecordFail(threshold: nat)
      modifies this`state, this`fails, this`successes, this`reason
      ensures View() == Next(old(View()), Fail(threshold))
    {
      fails := (fails + 1) % WRAP;
      var n := fails;
      successes := 0;
      if state == Ejected { return; }
      if n >= threshold {
        SetState(Down, "passive fail threshold");
      } else if n >= threshold / 2 && threshold >= 2 {
        SetState(Degraded, "passive failures");
      }
    }

    method RecordSuccess(passThreshold: nat)
      modifies this`state, this`fails, this`successes, this`reason
      ensures View() == Next(old(View()), Success(passThreshold))
    {
      fails := 0;
      successes := (successes + 1) % WRAP;
      var n := successes;
      var st := state;
      if st == Ejected { return; }
      if st == Probing || st == Down || st == Degraded {
        if n >= passThreshold {
          SetState(Healthy, "");
        } else if st != Probing {
          SetState(Probing, "recovering");
        }
      }
    }
  }

  // ---- What a trace of events says ----

  datatype Kind = Ejecting | Restoring | Failing | Succeeding

  /** The event a kind stands for when the thresholds are fixed. */
  function At(k: Kind, failN: nat, passN: nat): Event {
    match k
    case Ejecting => Eject
    case Restoring => Restore
    case Failing => Fail(failN)
    case Succeeding => Success(passN)
  }

  /** The endpoint after a trace, from creation. */
  function Run(trace: seq<Kind>, failN: nat, passN: nat): Health {
    if trace == [] then NEW
    else Next(Run(trace[..|trace| - 1], failN, passN), At(trace[|trace| - 1], failN, passN))
  }

  /** The failures in a row that count as down; a threshold of 0 acts as 1. */
  function AtLeastOne(n: nat): nat {
    if n == 0 then 1 else n
  }

  /** The last Eject has had no Restore since. */
  predicate EjectedBy(trace: seq<Kind>) {
    if trace == [] then false
    else match trace[|trace| - 1]
      case Ejecting => true
      case Restoring => false
      case _ => EjectedBy(trace[..|trace| - 1])
  }

  /** Failures since the last success, or since the last Restore that found the endpoint ejected or down. */
  function FailRun(trace: seq<Kind>, failN: nat): nat
    decreases |trace|, 0
  {
    if trace == [] then 0
    else
      var before := trace[..|trace| - 1];
      match trace[|trace| - 1]
      case Ejecting => FailRun(before, failN)
      case Restoring => if OutBy(before, failN) then 0 else FailRun(before, failN)
      case Failing => FailRun(before, failN) + 1
      case Succeeding => 0
  }

  /** Out of rotation, told from the trace alone. */
  predicate OutBy(trace: seq<Kind>, failN: nat)
    decreases |trace|, 1
  {
    EjectedBy(trace) || FailRun(trace, failN) >= AtLeastOne(failN)
  }

  /** The state that a trace with this verdict and this failure count must show. */
  ghost predicate Shows(h: Health, ejected: bool, n: nat, failN: nat) {
    && (h.state == Ejected <==> ejected)
    && (h.Eligible() <==> !(ejected || n >= AtLeastOne(failN)))
    && (h.state == Down <==> !ejected && n >= AtLeastOne(failN))
    && (h.state == Degraded <==> !ejected && failN >= 2 && failN / 2 <= n < failN)
  }

  /** n failures are too few for a wrapped counter to have reached the half threshold again. */
  predicate Few(ejected: bool, n: nat, failN: nat) {
    failN < 2 || ejected || n < WRAP + failN / 2
  }

  /** After every prefix of the trace the endpoint shows what the prefix says. */
  ghost predicate ShownThroughout(trace: seq<Kind>, failN: nat, passN: nat) {
    && (trace == [] || ShownThroughout(trace[..|trace| - 1], failN, passN))
    && Shows(Run(trace, failN, passN), EjectedBy(trace), FailRun(trace, failN), failN)
  }

  /** After no prefix of the trace, unless ejected, have 2^64 + F/2 failures been counted in a row. */
  predicate Calm(trace: seq<Kind>, failN: nat) {
    && (trace == [] || Calm(trace[..|trace| - 1], failN))
    && Few(EjectedBy(trace), FailRun(trace, failN), failN)
  }

  /** One event more: the counter keeps in step, and the state does exactly while the failures are few. */
  lemma ShowsStep(h: Health, k: Kind, ejected: bool, n: nat, failN: Count, passN: Count)
    requires Shows(h, ejected, n, failN) && Few(ejected, n, failN) && h.fails == n % WRAP
    ensures var out := ejected || n >= AtLeastOne(failN);
            var g := Next(h, At(k, failN, passN));
            match k
            case Ejecting => Shows(g, true, n, failN) && g.fails == n % WRAP
            case Restoring => var m := if out then 0 else n; Shows(g, false, m, failN) && g.fails == m % WRAP
            case Failing => (Shows(g, ejected, n + 1, failN) <==> Few(ejected, n + 1, failN))
              && g.fails == (n + 1) % WRAP
            case Succeeding => Shows(g, ejected, 0, failN) && g.fails == 0
  {
    if k == Failing {
      OneMore(n);
      Wrapped(n + 1);
    }
  }

  lemma OneMore(n: nat)
    ensures (n % WRAP + 1) % WRAP == (n + 1) % WRAP
  {}

  lemma Wrapped(n: nat)
    ensures n < WRAP ==> n % WRAP == n
    ensures WRAP <= n < 2 * WRAP ==> n % WRAP == n - WRAP
  {}

  /**
   * The state machine agrees with the trace: ejected, down and degraded each hold exactly
   * when the trace says so, hence so does eligibility. It does so all along exactly when the
   * threshold is below 2 or there were never, outside ejection, 2^64 + F/2 failures in a row.
   */
  lemma {:induction false} TraceDecides(trace: seq<Kind>, failN: Count, passN: Count)
    ensures ShownThroughout(trace, failN, passN) <==> Calm(trace, failN)
    ensures Calm(trace, failN) ==>
              && Run(trace, failN, passN).fails == FailRun(trace, failN) % WRAP
              && (Run(trace, failN, passN).Eligible() <==> !OutBy(trace, failN))
  {
    if trace != [] {
      var before := trace[..|trace| - 1];
      TraceDecides(before, failN, passN);
      if Calm(before, failN) {
        ShowsStep(Run(before, failN, passN), trace[|trace| - 1], EjectedBy(before), FailRun(before, failN), failN,
          passN);
      }
    }
  }

  /** A threshold of 0 or 1 is met on every trace, however long. */
  lemma {:induction false} LowThresholdsAlwaysDecide(trace: seq<Kind>, failN: nat)
    requires failN < 2
    ensures Calm(trace, failN)
  {
    if trace != [] { LowThresholdsAlwaysDecide(trace[..|trace| - 1], failN); }
  }

  /** In every reachable state, probing means fewer successes than needed, and a failed state none. */
  lemma {:induction false} SuccessCount(trace: seq<Kind>, failN: Count, passN: Count)
    ensures var h := Run(trace, failN, passN);
            && h.successes <= |trace| && h.successes < WRAP
            && (h.state == Probing ==> h.successes < AtLeastOne(passN))
            && (h.state == Down || h.state == Degraded ==> h.successes == 0)
  {
    if trace != [] { SuccessCount(trace[..|trace| - 1], failN, passN); }
  }

  /** The successes in a row that end the trace; those during an ejection do not count, nor those before it. */
  function SuccessRun(trace: seq<Kind>): nat {
    if trace == [] then 0
    else
      var before := trace[..|trace| - 1];
      match trace[|trace| - 1]
      case Ejecting => 0
      case Restoring => SuccessRun(before)
      case Failing => 0
      case Succeeding => if EjectedBy(before) then 0 else SuccessRun(before) + 1
  }

  /** Whoever is neither healthy nor ejected has as many successes as the trace says, and too few. */
  lemma {:induction false} Unearned(trace: seq<Kind>, failN: Count, passN: Count)
    ensures var h := Run(trace, failN, passN);
            && (h.state == Ejected <==> EjectedBy(trace))
            && (h.state != Ejected && h.state != Healthy ==>
                  h.successes == SuccessRun(trace) < AtLeastOne(passN))
  {
    if trace != [] {
      var before := trace[..|trace| - 1];
      Unearned(before, failN, passN);
      SuccessCount(before, failN, passN);
      EjectedCountsNone(before);
      UnearnedStep(Run(before, failN, passN), trace[|trace| - 1], EjectedBy(before), SuccessRun(before), failN, passN);
    }
  }

  lemma UnearnedStep(h: Health, k: Kind, ejected: bool, n: nat, failN: Count, passN: Count)
    requires (h.state == Ejected <==> ejected) && h.successes < WRAP
    requires h.state != Ejected && h.state != Healthy ==> h.successes == n < AtLeastOne(passN)
    requires h.state == Down ==> h.successes == 0
    ensures var g := Next(h, At(k, failN, passN));
            && (g.state == Ejected <==> k == Ejecting || (ejected && k != Restoring))
            && (g.state != Ejected && g.state != Healthy ==>
                  g.successes < AtLeastOne(passN)
                  && g.successes == (match k
                                     case Ejecting => 0
                                     case Restoring => if ejected then 0 else n
                                     case Failing => 0
                                     case Succeeding => if ejected then 0 else n + 1))
  {
    if k == Succeeding && h.successes + 1 < WRAP { assert (h.successes + 1) % WRAP == h.successes + 1; }
  }

  /** During an ejection no successes count. */
  lemma {:induction false} EjectedCountsNone(trace: seq<Kind>)
    ensures EjectedBy(trace) ==> SuccessRun(trace) == 0
  {
    if trace != [] { EjectedCountsNone(trace[..|trace| - 1]); }
  }

  /** Health is reached by the last of enough successes in a row, and in no other way. */
  lemma HealthIsEarned(trace: seq<Kind>, k: Kind, failN: Count, passN: Count)
    requires Run(trace, failN, passN).state != Healthy
    ensures Run(trace + [k], failN, passN).state == Healthy <==>
            k == Succeeding && !EjectedBy(trace) && SuccessRun(trace + [k]) >= AtLeastOne(passN)
  {
    Unearned(trace, failN, passN);
    SuccessCount(trace, failN, passN);
    assert (trace + [k])[..|trace|] == trace;
    EarnStep(Run(trace, failN, passN), k, SuccessRun(trace), failN, passN);
  }

  lemma EarnStep(h: Health, k: Kind, n: nat, failN: Count, passN: Count)
    requires h.state != Healthy && (h.state != Ejected ==> h.successes == n < AtLeastOne(passN))
    ensures Next(h, At(k, failN, passN)).state == Healthy <==>
            k == Succeeding && h.state != Ejected && n + 1 >= AtLeastOne(passN)
  {
    if h.state != Ejected { assert (n + 1) % WRAP == n + 1; }
  }

  /** Restoring puts an ejected or down endpoint on probation with a clean record, and nobody else. */
  lemma RestoringProbes(trace: seq<Kind>, failN: Count, passN: Count)
    ensures var h := Run(trace, failN, passN); var g := Run(trace + [Restoring], failN, passN);
            if h.state == Ejected || h.state == Down then g.state == Probing && g.fails == g.successes == 0 else g == h
  {
    assert (trace + [Restoring])[..|trace|] == trace;
  }

  function Repeat(h: Health, e: Event, n: nat): Health {
    if n == 0 then h else Next(Repeat(h, e, n - 1), e)
  }

  /** In every reachable state the counter fits its type, and outside ejection a threshold reached means down. */
  lemma {:induction false} ReachedIsDown(trace: seq<Kind>, failN: Count, passN: Count)
    ensures var h := Run(trace, failN, passN);
            h.fails < WRAP && (h.state != Ejected && h.fails >= AtLeastOne(failN) ==> h.state == Down)
  {
    if trace != [] { ReachedIsDown(trace[..|trace| - 1], failN, passN); }
  }

  /**
   * F failures in a row take every endpoint that is not ejected down, exactly unless its counter wraps
   * on the way and reaches the half threshold again.
   */
  lemma FailsReachDown(trace: seq<Kind>, failN: Count, passN: Count)
    requires Run(trace, failN, passN).state != Ejected
    ensures var h := Run(trace, failN, passN);
            Repeat(h, Fail(failN), AtLeastOne(failN)).state == Down <==> failN < 2 || h.fails + failN < WRAP + failN / 2
  {
    var h := Run(trace, failN, passN);
    ReachedIsDown(trace, failN, passN);
    var k := AtLeastOne(failN);
    hide Next, Run, Repeat;
    FailsCountUp(h, failN, k);
    Wrapped(h.fails + k);
    if WRAP <= h.fails + k < WRAP + (if failN < 2 then 1 else failN / 2) { FailsStayDown(h, failN, k); }
  }

  /** Just after a wrap the state is still what it was. */
  lemma {:induction false} FailsStayDown(h: Health, failN: Count, k: nat)
    requires h.fails < WRAP && h.state != Ejected && (h.fails >= AtLeastOne(failN) ==> h.state == Down)
    requires WRAP <= h.fails + k < WRAP + (if failN < 2 then 1 else failN / 2)
    ensures Repeat(h, Fail(failN), k).state == Down
  {
    FailsCountUp(h, failN, k);
    FailsCountUp(h, failN, k - 1);
    if h.fails + k > WRAP { FailsStayDown(h, failN, k - 1); }
  }

  lemma {:induction false} FailsCountUp(h: Health, failN: nat, k: nat)
    requires h.fails < WRAP && h.state != Ejected
    ensures var g := Repeat(h, Fail(failN), k);
            && g.fails == (h.fails + k) % WRAP && g.state != Ejected
            && (k > 0 && g.fails >= failN ==> g.state == Down)
            && (k > 0 && failN >= 2 && failN / 2 <= g.fails < failN ==> g.state == Degraded)
  {
    if k > 0 {
      FailsCountUp(h, failN, k - 1);
      OneMore(h.fails + k - 1);
    }
  }

  /** Once the counter has wrapped, half a threshold of further failures brings an endpoint back into rotation. */
  lemma FailsComeBack(h: Health, failN: Count)
    requires failN >= 2 && h.fails < WRAP && h.state != Ejected
    ensures var g := Repeat(h, Fail(failN), WRAP - h.fails + failN / 2);
            g.state == Degraded && g.Eligible()
  {
    FailsCountUp(h, failN, WRAP - h.fails + failN / 2);
    assert (WRAP + failN / 2) % WRAP == failN / 2;
  }

  lemma {:induction false} SuccessesCounted(h: Health, passN: nat, k: nat)
    requires h.successes < WRAP
    ensures Repeat(h, Success(passN), k).successes == (h.successes + k) % WRAP
  {
    if k > 0 {
      SuccessesCounted(h, passN, k - 1);
      OneMore(h.successes + k - 1);
    }
  }

  /** From down, degraded or a fresh restore, health returns with exactly the P-th success in a row, and stays. */
  lemma {:induction false} RecoversExactly(h: Health, passN: Count, j: nat)
    requires h.state == Down || h.state == Degraded || h.state == Probing
    requires h.successes == 0
    ensures var g := Repeat(h, Success(passN), j);
            && (g.state == Healthy <==> j >= AtLeastOne(passN))
            && g.successes == j % WRAP
            && (0 < j < AtLeastOne(passN) ==> g.state == Probing)
            && g.state != Ejected
  {
    if j > 0 { RecoversExactly(h, passN, j - 1); }
    SuccessesCounted(h, passN, j);
  }

  /** P successes in a row make every reachable endpoint healthy unless it is ejected. */
  lemma SuccessesReachHealthy(trace: seq<Kind>, failN: Count, passN: Count)
    requires Run(trace, failN, passN).state != Ejected
    ensures Repeat(Run(trace, failN, passN), Success(passN), AtLeastOne(passN)).state == Healthy
  {
    SuccessCount(trace, failN, passN);
    SuccessesCountUp(Run(trace, failN, passN), passN, AtLeastOne(passN));
  }

  /** Health is kept, and otherwise the successes are counted up to the threshold. */
  lemma {:induction false} SuccessesCountUp(h: Health, passN: Count, k: nat)
    requires h.state != Ejected && k <= AtLeastOne(passN)
    requires h.state != Healthy ==> h.successes < AtLeastOne(passN)
    ensures var g := Repeat(h, Success(passN), k);
            && g.state != Ejected
            && (g.state == Healthy || (g.successes == h.successes + k && (k > 0 ==> g.successes < passN)))
  {
    if k > 0 { SuccessesCountUp(h, passN, k - 1); }
  }

  /**
   * A success just before each failure, as the reactor records for an ERROR frame from an
   * upstream, keeps an endpoint up for ever once the threshold is 2 or more.
   */
  lemma {:induction false} PairedFailuresNeverTakeDown(h: Health, failN: nat, passN: nat, k: nat)
    requires failN >= 2 && h.Eligible()
    ensures PairsOf(h, failN, passN, k).Eligible()
  {
    if k > 0 { PairedFailuresNeverTakeDown(h, failN, passN, k - 1); }
  }

  function PairsOf(h: Health, failN: nat, passN: nat, k: nat): Health {
    if k == 0 then h
    else Next(Next(PairsOf(h, failN, passN, k - 1), Success(passN)), Fail(failN))
  }
}
