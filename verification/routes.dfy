// Round robin with skipping, and the choice a route makes (internal/routing/rr.go, table.go).
module Routes {
  import opened Bits
  import opened Upstream
  import S = Swrr

  /** Go's remainder, which has the sign of the dividend. */
  function Rem(a: int, m: int): (r: int)
    requires m > 0
    ensures -m < r < m
  {
    if a >= 0 then a % m else -((-a) % m)
  }

  /** Where the search starts when the counter, read as a signed number, stands at n. */
  function StartAt(n: nat, mod: int): (i: int)
    requires mod > 0
    ensures -mod < i < mod
  {
    Rem(Wrap64(n), mod)
  }

  /** The start is a place among the members exactly below 2^63, or a multiple of mod below 2^64. */
  lemma StartsInside(n: nat, mod: int)
    requires n < 2 * INT64_LIMIT && mod > 0
    ensures StartAt(n, mod) >= 0 <==> n < INT64_LIMIT || (2 * INT64_LIMIT - n) % mod == 0
    ensures n < INT64_LIMIT ==> StartAt(n, mod) == n % mod
    ensures StartAt(n, mod) >= 0 && n >= INT64_LIMIT ==> StartAt(n, mod) == 0
  {}

  /** Over three members the search starts at -2 once the counter has reached 2^63. */
  lemma StartsOutside()
    ensures StartAt(INT64_LIMIT, 3) == -2
  {}

  lemma OneLess(n: nat)
    requires n < 2 * INT64_LIMIT
    ensures ((n + 1) % (2 * INT64_LIMIT) - 1) % (2 * INT64_LIMIT) == n
  {
    if n + 1 == 2 * INT64_LIMIT {
      assert (n + 1) % (2 * INT64_LIMIT) == 0;
    }
  }

  class RR {
    var n: nat

    constructor ()
      ensures n == 0 && Valid()
    {
      n := 0;
    }

    predicate Valid()
      reads this
    {
      n < 2 * INT64_LIMIT
    }

    /** The counter is a uint64, and its old value is converted to int. */
    method Next(mod: int) returns (i: int)
      requires Valid()
      modifies this
      ensures Valid()
      ensures mod <= 0 ==> i == 0 && n == old(n)
      ensures mod > 0 ==> i == StartAt(old(n), mod) && n == (old(n) + 1) % (2 * INT64_LIMIT)
    {
      hide Rem, Wrap64;
      if mod <= 0 { return 0; }
      OneLess(n);
      n := (n + 1) % (2 * INT64_LIMIT);
      i := Rem(Wrap64((n - 1) % (2 * INT64_LIMIT)), mod);
    }
  }

  function Eligibles(eps: seq<Endpoint>): (es: seq<bool>)
    reads eps
    ensures |es| == |eps|
  {
    seq(|eps|, i reads eps requires 0 <= i < |eps| => eps[i].Eligible())
  }

  /** The first eligible member found i or more steps after start, or -1. */
  function FirstFrom(es: seq<bool>, start: nat, i: nat): (p: int)
    requires start < |es| && i <= |es|
    ensures -1 <= p < |es|
    decreases |es| - i
  {
    if i == |es| then -1
    else if es[Place(start, i, |es|)] then Place(start, i, |es|)
    else FirstFrom(es, start, i + 1)
  }

  /** The search finds a member unless there is none. */
  lemma {:induction false} FirstFromFinds(es: seq<bool>, start: nat, i: nat)
    requires start < |es| && i <= |es|
    ensures var p := FirstFrom(es, start, i);
            && (p == -1 <==> forall k :: i <= k < |es| ==> !es[Place(start, k, |es|)])
            && (p != -1 ==> es[p])
    decreases |es| - i
  {
    if i < |es| && !es[Place(start, i, |es|)] { FirstFromFinds(es, start, i + 1); }
  }

  ghost predicate AnyOf(es: seq<bool>) {
    exists i :: 0 <= i < |es| && es[i]
  }

  /** Round robin gives up only when nobody is eligible, and never returns an ineligible member. */
  lemma RoundRobinFinds(es: seq<bool>, start: nat)
    requires start < |es|
    ensures FirstFrom(es, start, 0) == -1 <==> !AnyOf(es)
    ensures FirstFrom(es, start, 0) != -1 ==> es[FirstFrom(es, start, 0)]
  {
    FirstFromFinds(es, start, 0);
    if AnyOf(es) {
      var i :| 0 <= i < |es| && es[i];
      var k := if i >= start then i - start else i - start + |es|;
      assert Place(start, k, |es|) == i;
    }
  }

  /** The member that the index expression of the loop names in round j. */
  function Around(start: nat, j: nat, n: nat): (k: nat)
    requires n > 0
    ensures k < n
  {
    (start + j) % n
  }

  /** The member found is the nearest one: the start itself if it is eligible, else the next one around that is. */
  lemma {:induction false} NearestFirst(es: seq<bool>, start: nat, i: nat, k: nat)
    requires start < |es| && i <= k < |es| && es[Around(start, k, |es|)]
    requires forall j :: i <= j < k ==> !es[Around(start, j, |es|)]
    ensures FirstFrom(es, start, i) == Around(start, k, |es|)
    decreases k - i
  {
    PlaceIsMod(start, i, |es|);
    assert Around(start, i, |es|) == Place(start, i, |es|);
    hide Place, Around;
    if i < k { NearestFirst(es, start, i + 1, k); }
  }

  datatype Algorithm = AlgoRR | AlgoSWRR

  class Route {
    const algo: Algorithm
    const members: seq<Endpoint>
    const rr: RR
    const swrr: S.SWRR

    constructor (algo: Algorithm, members: seq<Endpoint>)
      ensures this.algo == algo && this.members == members
      ensures fresh(rr) && fresh(swrr) && fresh(swrr.current)
      ensures rr.n == 0 && swrr.current[..] == S.Zeros(|members|)
    {
      this.algo, this.members := algo, members;
      rr := new RR();
      swrr := new S.SWRR();
      new;
      swrr.Reset(members);
    }

    /** The index of the member chosen, or -1; lost when the search indexes before the first member, which panics. */
    method Pick() returns (best: int, lost: bool)
      requires rr.Valid()
      modifies rr, swrr, swrr.current
      ensures Eligibles(members) == old(Eligibles(members))
      ensures rr.Valid()
      ensures lost <==>
              members != [] && (algo == AlgoRR || !AnyOf(Eligibles(members))) && StartAt(old(rr.n), |members|) < 0
      ensures best == -1 <==> lost || !AnyOf(Eligibles(members))
      ensures -1 <= best < |members| && (best != -1 ==> members[best].Eligible())
      ensures algo == AlgoSWRR && best != -1 ==>
                && best == S.Picked(S.Ready(old(swrr.current[..]), |members|), S.Snapshot(members))
                && swrr.current[..] == S.After(S.Ready(old(swrr.current[..]), |members|), S.Snapshot(members))
                && rr.n == old(rr.n)
      ensures algo == AlgoRR && members != [] ==>
                && (!lost ==> best == FirstFrom(Eligibles(members), StartAt(old(rr.n), |members|), 0))
                && rr.n == (old(rr.n) + 1) % (2 * INT64_LIMIT)
    {
      var n := |members|;
      if n == 0 { return -1, false; }
      if algo == AlgoSWRR {
        var ep := PickWeighted();
        if ep != -1 { return ep, false; }
      }
      best, lost := PickInTurn();
    }

    method PickWeighted() returns (best: int)
      requires members != []
      modifies swrr, swrr.current
      ensures Eligibles(members) == old(Eligibles(members))
      ensures best == S.Picked(S.Ready(old(swrr.current[..]), |members|), S.Snapshot(members))
      ensures swrr.current[..] == S.After(S.Ready(old(swrr.current[..]), |members|), S.Snapshot(members))
      ensures -1 <= best < |members| && (best == -1 <==> !AnyOf(Eligibles(members)))
      ensures best != -1 ==> members[best].Eligible()
      ensures swrr.current == old(swrr.current) || fresh(swrr.current)
    {
      ghost var cur := S.Ready(swrr.current[..], |members|);
      ghost var ms := S.Snapshot(members);
      best := swrr.Pick(members);
      S.PickedIsFirstBest(cur, ms);
      SameEligibility(members);
    }

    /** The loop of Pick, from the next position of the counter. */
    method PickInTurn() returns (best: int, lost: bool)
      requires members != [] && rr.Valid()
      modifies rr
      ensures rr.n == (old(rr.n) + 1) % (2 * INT64_LIMIT) && rr.Valid()
      ensures Eligibles(members) == old(Eligibles(members))
      ensures lost <==> StartAt(old(rr.n), |members|) < 0
      ensures !lost ==> best == FirstFrom(Eligibles(members), StartAt(old(rr.n), |members|), 0)
      ensures -1 <= best < |members| && (best == -1 <==> lost || !AnyOf(Eligibles(members)))
      ensures best != -1 ==> members[best].Eligible()
    {
      var start := rr.Next(|members|);
      if start < 0 { return -1, true; }
      best := Search(start);
      lost := false;
    }

    /** The first eligible member at or after start. */
    method Search(start: nat) returns (best: int)
      requires start < |members|
      ensures best == FirstFrom(Eligibles(members), start, 0)
      ensures -1 <= best < |members| && (best == -1 <==> !AnyOf(Eligibles(members)))
      ensures best != -1 ==> members[best].Eligible()
    {
      var n := |members|;
      ghost var es := Eligibles(members);
      RoundRobinFinds(es, start);
      var i := 0;
      while i < n
        invariant 0 <= i <= n
        invariant FirstFrom(es, start, 0) == FirstFrom(es, start, i)
      {
        var k := ModIndex(start, i, n);
        if members[k].Eligible() { return k; }
        i := i + 1;
      }
      return -1;
    }
  }

  /** The index expression of the loop. */
  method ModIndex(start: nat, i: nat, n: nat) returns (k: nat)
    requires start < n && i <= n
    ensures k == Place(start, i, n)
  {
    PlaceIsMod(start, i, n);
    k := (start + i) % n;
  }

  lemma SameEligibility(eps: seq<Endpoint>)
    ensures S.AnyEligible(S.Snapshot(eps)) <==> AnyOf(Eligibles(eps))
  {
    if S.AnyEligible(S.Snapshot(eps)) {
      var i :| 0 <= i < |eps| && S.Snapshot(eps)[i].eligible;
      assert Eligibles(eps)[i];
    }
    if AnyOf(Eligibles(eps)) {
      var i :| 0 <= i < |eps| && Eligibles(eps)[i];
      assert S.Snapshot(eps)[i].eligible;
    }
  }

  // ---- The share of each member under fixed eligibility ----

  /** The member that round robin chooses when its counter stands at t. */
  function TurnAt(es: seq<bool>, t: nat): int
    requires es != []
  {
    FirstFrom(es, t % |es|, 0)
  }

  /** How often j is chosen in the m picks from counter value s on. */
  function CountFrom(es: seq<bool>, j: nat, s: nat, m: nat): nat
    requires es != []
  {
    if m == 0 then 0 else CountFrom(es, j, s, m - 1) + (if TurnAt(es, s + m - 1) == j then 1 else 0)
  }

  /** The place d steps before j around n members. */
  function Back(j: nat, d: nat, n: nat): (p: nat)
    requires j < n && d < n
    ensures p < n
  {
    if d <= j then j - d else j - d + n
  }

  /** How many ineligible members stand in a row just before j, beyond the first d of them. */
  function RunBefore(es: seq<bool>, j: nat, d: nat): (r: nat)
    requires j < |es| && d < |es|
    ensures d <= r < |es|
    decreases |es| - d
  {
    if d + 1 < |es| && !es[Back(j, d + 1, |es|)] then RunBefore(es, j, d + 1) else d
  }

  lemma {:induction false} RunBeforeIs(es: seq<bool>, j: nat, d: nat)
    requires j < |es| && d < |es|
    requires forall k :: 1 <= k <= d ==> !es[Back(j, k, |es|)]
    ensures var r := RunBefore(es, j, d);
            && (forall k :: 1 <= k <= r ==> !es[Back(j, k, |es|)])
            && (r + 1 < |es| ==> es[Back(j, r + 1, |es|)])
    decreases |es| - d
  {
    if d + 1 < |es| && !es[Back(j, d + 1, |es|)] { RunBeforeIs(es, j, d + 1); }
  }

  /** From d places before j, with i of them already passed over, the search reaches j iff the rest are ineligible. */
  lemma {:induction false} Reaches(es: seq<bool>, j: nat, d: nat, i: nat)
    requires j < |es| && d < |es| && i <= d && es[j]
    ensures FirstFrom(es, Back(j, d, |es|), i) == j <==> forall k :: 1 <= k <= d - i ==> !es[Back(j, k, |es|)]
    decreases d - i
  {
    var n := |es|;
    assert Place(Back(j, d, n), i, n) == Back(j, d - i, n);
    if i < d {
      if !es[Back(j, d - i, n)] {
        Reaches(es, j, d, i + 1);
      } else {
        assert Back(j, d - i, n) != j;
      }
    }
  }

  lemma ReachesWithinRun(es: seq<bool>, j: nat, d: nat)
    requires j < |es| && d < |es| && es[j]
    ensures FirstFrom(es, Back(j, d, |es|), 0) == j <==> d <= RunBefore(es, j, 0)
  {
    Reaches(es, j, d, 0);
    RunBeforeIs(es, j, 0);
  }

  lemma {:induction false} CountHead(es: seq<bool>, j: nat, s: nat, m: nat)
    requires es != [] && m > 0
    ensures CountFrom(es, j, s, m) == (if TurnAt(es, s) == j then 1 else 0) + CountFrom(es, j, s + 1, m - 1)
  {
    if m > 1 { CountHead(es, j, s, m - 1); }
  }

  /** A window of n picks may slide: what leaves it at the front enters at the back. */
  lemma {:induction false} CountAnywhere(es: seq<bool>, j: nat, s: nat)
    requires es != []
    ensures CountFrom(es, j, s, |es|) == CountFrom(es, j, 0, |es|)
  {
    if s > 0 {
      CountAnywhere(es, j, s - 1);
      CountHead(es, j, s - 1, |es|);
      TurnRepeats(es, s - 1);
    }
  }

  lemma TurnRepeats(es: seq<bool>, t: nat)
    requires es != []
    ensures TurnAt(es, t + |es|) == TurnAt(es, t)
  {
    NextRound(t, |es|);
  }

  lemma NextRound(t: nat, n: nat)
    requires n > 0
    ensures (t + n) % n == t % n
  {
    assert n * (t / n + 1) == n * (t / n) + n;
    ModUnique(t + n, n, t / n + 1, t % n);
  }

  /** From the counter value just after j, turn k starts n - 1 - k places before j. */
  lemma TurnAfter(es: seq<bool>, j: nat, k: nat)
    requires j < |es| && k < |es|
    ensures TurnAt(es, j + 1 + k) == FirstFrom(es, Back(j, |es| - 1 - k, |es|), 0)
  {
    var n := |es|;
    ModUnique(j + 1 + k, n, if j + 1 + k < n then 0 else 1, Back(j, n - 1 - k, n));
  }

  lemma {:induction false} CountAfter(es: seq<bool>, j: nat, m: nat)
    requires j < |es| && es[j] && m <= |es|
    ensures var quiet := |es| - 1 - RunBefore(es, j, 0);
            CountFrom(es, j, j + 1, m) == if m <= quiet then 0 else m - quiet
  {
    if m > 0 {
      CountAfter(es, j, m - 1);
      TurnAfter(es, j, m - 1);
      ReachesWithinRun(es, j, |es| - m);
    }
  }

  /**
   * Any n picks in a row over n members choose the eligible member j once for itself
   * and once for every ineligible member in the run just before it.
   */
  lemma RoundRobinShare(es: seq<bool>, j: nat, s: nat)
    requires j < |es| && es[j]
    ensures CountFrom(es, j, s, |es|) == 1 + RunBefore(es, j, 0)
  {
    CountAnywhere(es, j, s);
    CountAnywhere(es, j, j + 1);
    CountAfter(es, j, |es|);
  }
}
