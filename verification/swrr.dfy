// Smooth weighted round robin (internal/routing/swrr.go).
module Swrr {
  import opened Bits
  import opened Upstream

  /** What one pick sees of a member: whether it is eligible, and its weight. */
  datatype Member = Member(eligible: bool, weight: int) {
    /** The weight that counts: a weight below 1 is taken as 1. */
    function W(): (w: nat)
      ensures w >= 1
    {
      if weight <= 0 then 1 else weight
    }

    /** What the member gains in one pick. */
    function Gain(): nat {
      if eligible then W() else 0
    }
  }

  function Snapshot(eps: seq<Endpoint>): (ms: seq<Member>)
    reads eps
    ensures |ms| == |eps|
  {
    seq(|eps|, i reads eps requires 0 <= i < |eps| => Member(eps[i].Eligible(), eps[i].weight))
  }

  function Sum(s: seq<int>): int {
    if s == [] then 0 else Sum(s[..|s| - 1]) + s[|s| - 1]
  }

  /** The sum of the weights of the eligible members, a weight below 1 counting as 1. */
  function Total(ms: seq<Member>): (t: int)
    ensures t >= 0
  {
    if ms == [] then 0
    else
      var m := ms[|ms| - 1];
      Total(ms[..|ms| - 1]) + (if !m.eligible then 0 else if m.weight >= 1 then m.weight else 1)
  }

  /** A member's current once its weight is added. */
  function Val(cur: seq<int>, ms: seq<Member>, i: nat): int
    requires i < |cur| == |ms|
  {
    cur[i] + ms[i].Gain()
  }

  ghost predicate AnyEligible(ms: seq<Member>) {
    exists i :: 0 <= i < |ms| && ms[i].eligible
  }

  /** b is the first of the eligible members whose value is greatest. */
  ghost predicate FirstBest(cur: seq<int>, ms: seq<Member>, b: int)
    requires |cur| == |ms|
  {
    && 0 <= b < |ms| && ms[b].eligible
    && (forall j :: 0 <= j < |ms| && ms[j].eligible ==> Val(cur, ms, j) <= Val(cur, ms, b))
    && (forall j :: 0 <= j < b && ms[j].eligible ==> Val(cur, ms, j) < Val(cur, ms, b))
  }

  /** The first best among the first n members, or -1. */
  function BestOf(cur: seq<int>, ms: seq<Member>, n: nat): (b: int)
    requires |cur| == |ms| && n <= |ms|
    ensures -1 <= b < n
  {
    if n == 0 then -1
    else
      var b := BestOf(cur, ms, n - 1);
      if ms[n - 1].eligible && (b < 0 || Val(cur, ms, n - 1) > Val(cur, ms, b)) then n - 1 else b
  }

  lemma {:induction false} BestOfIsFirst(cur: seq<int>, ms: seq<Member>, n: nat)
    requires |cur| == |ms| && n <= |ms|
    ensures var b := BestOf(cur, ms, n);
            && (b == -1 <==> forall j :: 0 <= j < n ==> !ms[j].eligible)
            && (b != -1 ==> ms[b].eligible)
            && (b != -1 ==> forall j :: 0 <= j < n && ms[j].eligible ==> Val(cur, ms, j) <= Val(cur, ms, b))
            && (b != -1 ==> forall j :: 0 <= j < b && ms[j].eligible ==> Val(cur, ms, j) < Val(cur, ms, b))
  {
    if n > 0 { BestOfIsFirst(cur, ms, n - 1); }
  }

  /** The member picked, or -1 when none is eligible. */
  function Picked(cur: seq<int>, ms: seq<Member>): (b: int)
    requires |cur| == |ms|
    ensures -1 <= b < |ms|
  {
    BestOf(cur, ms, |ms|)
  }

  /** A pick fails only when nobody is eligible; otherwise the first of the best is taken. */
  lemma PickedIsFirstBest(cur: seq<int>, ms: seq<Member>)
    requires |cur| == |ms|
    ensures Picked(cur, ms) == -1 <==> !AnyEligible(ms)
    ensures Picked(cur, ms) != -1 ==> FirstBest(cur, ms, Picked(cur, ms))
  {
    BestOfIsFirst(cur, ms, |ms|);
  }

  /** The currents when every eligible member gains its weight and member b pays the price. */
  function Settle(cur: seq<int>, ms: seq<Member>, b: int, price: int): (s: seq<int>)
    requires |cur| == |ms|
    ensures |s| == |ms|
    ensures forall i :: 0 <= i < |ms| ==> s[i] == Val(cur, ms, i) - (if i == b then price else 0)
  {
    seq(|ms|, i requires 0 <= i < |ms| => Val(cur, ms, i) - (if i == b then price else 0))
  }

  /** The currents after one pick. */
  function After(cur: seq<int>, ms: seq<Member>): (s: seq<int>)
    requires |cur| == |ms|
    ensures |s| == |ms|
  {
    Settle(cur, ms, Picked(cur, ms), Total(ms))
  }

  function Zeros(n: nat): (s: seq<int>)
    ensures |s| == n
  {
    seq(n, i => 0)
  }

  /** The currents a pick starts from: a list of the wrong length is replaced by zeros. */
  function Ready(cur: seq<int>, n: nat): (s: seq<int>)
    ensures |s| == n
  {
    if |cur| == n then cur else Zeros(n)
  }

  class SWRR {
    var current: array<int>

    constructor ()
      ensures fresh(current) && current[..] == []
    {
      current := new int[0];
      new;
      assert current[..] == [];
    }

    method Reset(members: seq<Endpoint>)
      modifies this
      ensures fresh(current) && current[..] == Zeros(|members|)
    {
      current := new int[|members|](i => 0);
    }

    method Pick(members: seq<Endpoint>) returns (best: int)
      modifies this, current
      ensures members == [] ==> best == -1 && current == old(current) && current[..] == old(current[..])
      ensures members != [] ==>
                var ms := Snapshot(members); var cur := Ready(old(current[..]), |ms|);
                best == Picked(cur, ms) && current[..] == After(cur, ms)
      ensures current == old(current) || fresh(current)
      ensures Snapshot(members) == old(Snapshot(members))
    {
      if |members| == 0 { return -1; }
      if current.Length != |members| {
        current := new int[|members|](i => 0);
      }
      assert current[..] == Ready(old(current[..]), |members|);
      best := PickSized(members);
    }

    /** Pick once the list of currents has the right length. */
    method PickSized(members: seq<Endpoint>) returns (best: int)
      requires current.Length == |members|
      modifies current
      ensures Snapshot(members) == old(Snapshot(members))
      ensures best == Picked(old(current[..]), Snapshot(members))
      ensures current[..] == After(old(current[..]), Snapshot(members))
    {
      ghost var ms := Snapshot(members);
      ghost var cur := current[..];
      var total;
      best, total := Scan(members);
      ScanDone(cur, ms, current[..], total, best);
      if best < 0 {
        return -1;
      }
      current[best] := current[best] - total;
      assert current[..] == Settle(cur, ms, best, total);
    }

    /** The loop of Pick. */
    method Scan(members: seq<Endpoint>) returns (best: int, total: int)
      requires current.Length == |members|
      modifies current
      ensures Snapshot(members) == old(Snapshot(members))
      ensures exists v :: Partial(old(current[..]), Snapshot(members), current[..], |members|, total, best, v)
    {
      ghost var ms := Snapshot(members);
      ghost var cur := current[..];
      total := 0;
      best := -1;
      var bestVal := 0;
      var i := 0;
      while i < |members|
        invariant 0 <= i <= |members|
        invariant Snapshot(members) == ms
        invariant Partial(cur, ms, current[..], i, total, best, bestVal)
      {
        total, best, bestVal := Visit(members, i, total, best, bestVal, cur);
        i := i + 1;
      }
    }

    /** One round of the loop. */
    method Visit(members: seq<Endpoint>, i: nat, total0: int, best0: int, bestVal0: int, ghost cur: seq<int>)
      returns (total: int, best: int, bestVal: int)
      requires current.Length == |members| && i < |members|
      requires Partial(cur, Snapshot(members), current[..], i, total0, best0, bestVal0)
      modifies current
      ensures Snapshot(members) == old(Snapshot(members))
      ensures Partial(cur, Snapshot(members), current[..], i + 1, total, best, bestVal)
    {
      total, best, bestVal := total0, best0, bestVal0;
      var ep := members[i];
      ghost var ms := Snapshot(members);
      ghost var now := current[..];
      assert ms[i] == Member(ep.Eligible(), ep.weight);
      ScanStep(cur, ms, now, i, total, best, bestVal);
      if ep.Eligible() {
        var w := ep.weight;
        if w <= 0 { w := 1; }
        current[i] := current[i] + w;
        total := total + w;
        if best < 0 || current[i] > bestVal {
          best := i;
          bestVal := current[i];
        }
        assert current[..] == now[i := now[i] + w];
      }
      assert Snapshot(members) == ms;
    }
  }

  /** The loop state of Pick after its first i members. */
  ghost predicate Partial(cur: seq<int>, ms: seq<Member>, now: seq<int>, i: int, total: int, best: int, bestVal: int) {
    && |cur| == |ms| == |now| && 0 <= i <= |ms|
    && total == Total(ms[..i])
    && best == BestOf(cur, ms, i)
    && (best >= 0 ==> bestVal == Val(cur, ms, best))
    && (forall j :: 0 <= j < i ==> now[j] == Val(cur, ms, j))
    && (forall j :: i <= j < |ms| ==> now[j] == cur[j])
  }

  lemma ScanStep(cur: seq<int>, ms: seq<Member>, now: seq<int>, i: nat, total: int, best: int, bestVal: int)
    requires Partial(cur, ms, now, i, total, best, bestVal) && i < |ms|
    ensures !ms[i].eligible ==> Partial(cur, ms, now, i + 1, total, best, bestVal)
    ensures ms[i].eligible ==>
              var v := now[i] + ms[i].W();
              var take := best < 0 || v > bestVal;
              Partial(cur, ms, now[i := v], i + 1, total + ms[i].W(), if take then i else best, if take then v
                else bestVal)
  {
    assert ms[..i + 1][..i] == ms[..i];
  }

  lemma ScanDone(cur: seq<int>, ms: seq<Member>, now: seq<int>, total: int, best: int)
    requires exists v :: Partial(cur, ms, now, |ms|, total, best, v)
    ensures |cur| == |ms| && total == Total(ms) && best == Picked(cur, ms)
    ensures now == Settle(cur, ms, -1, total)
  {
    assert ms[..|ms|] == ms;
  }

  // ---- Conservation ----

  lemma {:induction false} SumSettle(cur: seq<int>, ms: seq<Member>, b: int, price: int)
    requires |cur| == |ms|
    ensures Sum(Settle(cur, ms, b, price)) == Sum(cur) + Total(ms) - (if 0 <= b < |ms| then price else 0)
  {
    if ms != [] {
      var n := |ms| - 1;
      SumSettle(cur[..n], ms[..n], b, price);
      assert Settle(cur, ms, b, price)[..n] == Settle(cur[..n], ms[..n], b, price);
    }
  }

  lemma {:induction false} TotalZero(ms: seq<Member>)
    requires !AnyEligible(ms)
    ensures Total(ms) == 0
  {
    if ms != [] {
      var n := |ms| - 1;
      assert !ms[n].eligible;
      forall i | 0 <= i < n ensures !ms[..n][i].eligible { assert ms[i] == ms[..n][i]; }
      TotalZero(ms[..n]);
    }
  }

  lemma {:induction false} TotalPositive(ms: seq<Member>, i: nat)
    requires i < |ms| && ms[i].eligible
    ensures Total(ms) >= ms[i].W() >= 1
  {
    var n := |ms| - 1;
    if i < n { TotalPositive(ms[..n], i); }
  }

  lemma NonePicked(cur: seq<int>, ms: seq<Member>)
    requires |cur| == |ms| && Picked(cur, ms) == -1
    ensures Total(ms) == 0
  {
    PickedIsFirstBest(cur, ms);
    TotalZero(ms);
  }

  /** A pick never changes the sum of the currents, whoever is eligible at the time. */
  lemma PickConservesSum(cur: seq<int>, ms: seq<Member>)
    requires |cur| == |ms|
    ensures Sum(After(cur, ms)) == Sum(cur)
  {
    SumSettle(cur, ms, Picked(cur, ms), Total(ms));
    if Picked(cur, ms) == -1 { NonePicked(cur, ms); }
  }

  /** The currents after a run of picks whose eligibility and weights may change in between. */
  function AfterAll(runs: seq<seq<Member>>, n: nat): (s: seq<int>)
    requires forall k :: 0 <= k < |runs| ==> |runs[k]| == n
    ensures |s| == n
  {
    if runs == [] then Zeros(n) else After(AfterAll(runs[..|runs| - 1], n), runs[|runs| - 1])
  }

  lemma {:induction false} SumZeros(n: nat)
    ensures Sum(Zeros(n)) == 0
  {
    if n > 0 {
      SumZeros(n - 1);
      assert Zeros(n)[..n - 1] == Zeros(n - 1);
    }
  }

  /** Starting from zeros the currents always sum to zero. */
  lemma {:induction false} SumStaysZero(runs: seq<seq<Member>>, n: nat)
    requires forall k :: 0 <= k < |runs| ==> |runs[k]| == n
    ensures Sum(AfterAll(runs, n)) == 0
  {
    if runs == [] {
      SumZeros(n);
    } else {
      SumStaysZero(runs[..|runs| - 1], n);
      PickConservesSum(AfterAll(runs[..|runs| - 1], n), runs[|runs| - 1]);
    }
  }

  // ---- Exact shares under fixed eligibility ----

  /** The currents after k picks from zero. */
  function Cur(ms: seq<Member>, k: nat): (s: seq<int>)
    ensures |s| == |ms|
  {
    if k == 0 then Zeros(|ms|) else After(Cur(ms, k - 1), ms)
  }

  /** The member that pick number k chooses, counting from 0. */
  function PickAt(ms: seq<Member>, k: nat): int {
    Picked(Cur(ms, k), ms)
  }

  /** How often member i is chosen among the first k picks. */
  function Count(ms: seq<Member>, i: nat, k: nat): nat {
    if k == 0 then 0 else Count(ms, i, k - 1) + (if PickAt(ms, k - 1) == i then 1 else 0)
  }

  lemma {:induction false} SumOfCur(ms: seq<Member>, k: nat)
    ensures Sum(Cur(ms, k)) == 0
  {
    if k == 0 { SumZeros(|ms|); } else { SumOfCur(ms, k - 1); PickConservesSum(Cur(ms, k - 1), ms); }
  }

  /** One pick adds the gain, and takes the total from the member picked. */
  lemma CurStep(ms: seq<Member>, i: nat, k: nat)
    requires i < |ms| && k > 0
    ensures Cur(ms, k)[i] == Cur(ms, k - 1)[i] + ms[i].Gain() - (if PickAt(ms, k - 1) == i then Total(ms) else 0)
    ensures Count(ms, i, k) == Count(ms, i, k - 1) + (if PickAt(ms, k - 1) == i then 1 else 0)
  {}

  /** n times x, by repeated addition: keeps products out of the proofs that do not need them. */
  function Times(n: nat, x: int): int {
    if n == 0 then 0 else Times(n - 1, x) + x
  }

  lemma {:induction false} TimesIsProduct(n: nat, x: int)
    ensures Times(n, x) == n * x
  {
    if n > 0 {
      TimesIsProduct(n - 1, x);
      Distribute(x, n - 1, 1);
    }
  }

  lemma Distribute(x: int, a: int, b: int)
    ensures (a + b) * x == a * x + b * x
  {}

  /** A current is what the weight has earned less what the picks have cost. */
  lemma {:induction false} CurIsBalance(ms: seq<Member>, i: nat, k: nat)
    requires i < |ms|
    ensures Cur(ms, k)[i] == Times(k, ms[i].Gain()) - Times(Count(ms, i, k), Total(ms))
  {
    if k > 0 {
      CurIsBalance(ms, i, k - 1);
      CurStep(ms, i, k);
    }
  }

  lemma {:induction false} SumPositive(s: seq<int>)
    requires Sum(s) > 0
    ensures exists i :: 0 <= i < |s| && s[i] > 0
  {
    var n := |s| - 1;
    if s[n] <= 0 {
      SumPositive(s[..n]);
      var i :| 0 <= i < n && s[..n][i] > 0;
      assert s[i] > 0;
    }
  }

  /** No current ever falls to -W: the one that pays W is positive when it pays. */
  lemma {:induction false} CurAboveMinusTotal(ms: seq<Member>, k: nat)
    requires AnyEligible(ms)
    ensures forall i :: 0 <= i < |ms| ==> Cur(ms, k)[i] > -Total(ms)
    ensures forall i :: 0 <= i < |ms| && !ms[i].eligible ==> Cur(ms, k)[i] == 0
  {
    SomeoneWeighs(ms);
    if k > 0 {
      CurAboveMinusTotal(ms, k - 1);
      BestIsPositive(Cur(ms, k - 1), ms, k - 1);
      AboveStep(Cur(ms, k - 1), ms);
    }
  }

  lemma {:induction false} SumAbove(s: seq<int>, low: int, i: nat)
    requires i < |s| && forall j :: 0 <= j < |s| ==> s[j] >= low
    ensures Sum(s) >= s[i] + Times(|s| - 1, low)
  {
    var n := |s| - 1;
    if i < n {
      SumAbove(s[..n], low, i);
    } else if n > 0 {
      SumAbove(s[..n], low, n - 1);
    }
  }

  /**
   * With eligibility fixed, no current leaves the 64-bit integers, neither between picks nor inside one,
   * however long the run, if the number of members times the total weight fits.
   */
  lemma CurrentsFit(ms: seq<Member>, k: nat, i: nat)
    requires AnyEligible(ms) && i < |ms| && |ms| * Total(ms) < INT64_LIMIT
    ensures IsInt64(Cur(ms, k)[i]) && IsInt64(Val(Cur(ms, k), ms, i)) && IsInt64(Total(ms))
  {
    CurAboveMinusTotal(ms, k);
    SumOfCur(ms, k);
    SumAbove(Cur(ms, k), -Total(ms), i);
    TimesIsProduct(|ms| - 1, -Total(ms));
    GainInTotal(ms, i);
    assert |ms| * Total(ms) == (|ms| - 1) * Total(ms) + Total(ms);
    assert (|ms| - 1) * -Total(ms) == -((|ms| - 1) * Total(ms));
    MultipleAtLeast(|ms|, Total(ms));
  }

  lemma MultipleAtLeast(n: nat, x: int)
    requires n >= 1 && x >= 0
    ensures n * x >= x
  {}

  lemma {:induction false} GainInTotal(ms: seq<Member>, i: nat)
    requires i < |ms|
    ensures ms[i].Gain() <= Total(ms)
  {
    if i < |ms| - 1 { GainInTotal(ms[..|ms| - 1], i); }
  }

  /** What all the picks of a run have added in total. */
  function Given(runs: seq<seq<Member>>): (g: int)
    ensures g >= 0
  {
    if runs == [] then 0 else Given(runs[..|runs| - 1]) + Total(runs[|runs| - 1])
  }

  /** Whatever changes between picks, no current is further from zero than all that has been added so far. */
  lemma {:induction false} CurrentsDrift(runs: seq<seq<Member>>, n: nat, i: nat)
    requires i < n && forall k :: 0 <= k < |runs| ==> |runs[k]| == n
    ensures -Given(runs) <= AfterAll(runs, n)[i] <= Given(runs)
    ensures forall ms :: |ms| == n ==> -Given(runs) <= Val(AfterAll(runs, n), ms, i) <= Given(runs + [ms])
  {
    if runs != [] {
      var before, ms := runs[..|runs| - 1], runs[|runs| - 1];
      CurrentsDrift(before, n, i);
      GainInTotal(ms, i);
    }
    forall ms: seq<Member> | |ms| == n ensures -Given(runs) <= Val(AfterAll(runs, n), ms, i) <= Given(runs + [ms]) {
      GainInTotal(ms, i);
      assert (runs + [ms])[..|runs|] == runs;
    }
  }

  lemma AboveStep(cur: seq<int>, ms: seq<Member>)
    requires AnyEligible(ms) && |cur| == |ms|
    requires Picked(cur, ms) >= 0 && Val(cur, ms, Picked(cur, ms)) > 0
    requires forall i :: 0 <= i < |ms| ==> cur[i] > -Total(ms)
    requires forall i :: 0 <= i < |ms| && !ms[i].eligible ==> cur[i] == 0
    ensures forall i :: 0 <= i < |ms| ==> After(cur, ms)[i] > -Total(ms)
    ensures forall i :: 0 <= i < |ms| && !ms[i].eligible ==> After(cur, ms)[i] == 0
  {
    PickedIsFirstBest(cur, ms);
  }

  lemma BestIsPositive(cur: seq<int>, ms: seq<Member>, k: nat)
    requires AnyEligible(ms) && cur == Cur(ms, k)
    requires forall i :: 0 <= i < |ms| && !ms[i].eligible ==> cur[i] == 0
    ensures Picked(cur, ms) >= 0 && Val(cur, ms, Picked(cur, ms)) > 0
  {
    SomeoneWeighs(ms);
    SumOfCur(ms, k);
    SumSettle(cur, ms, -1, 0);
    PickedIsFirstBest(cur, ms);
    SumPositive(Settle(cur, ms, -1, 0));
    var i :| 0 <= i < |ms| && Settle(cur, ms, -1, 0)[i] > 0;
    assert ms[i].eligible;
  }

  lemma {:induction false} NonNegativeSumZero(s: seq<int>)
    requires forall i :: 0 <= i < |s| ==> s[i] >= 0
    ensures Sum(s) >= 0
    ensures Sum(s) == 0 ==> forall i :: 0 <= i < |s| ==> s[i] == 0
  {
    if s != [] {
      var n := |s| - 1;
      NonNegativeSumZero(s[..n]);
      if Sum(s) == 0 {
        forall i | 0 <= i < n ensures s[i] == 0 { assert s[..n][i] == 0; }
      }
    }
  }

  lemma Scale(w: int, d: int)
    requires w >= 1
    ensures d <= -1 ==> d * w <= -w
    ensures d >= 1 ==> d * w >= w
    ensures d >= 0 ==> d * w >= 0
  {}

  lemma ProductAbove(w: int, g: int, c: int)
    requires w >= 1 && g * w - c * w > -w
    ensures g * w - c * w >= 0
  {
    Distribute(w, g - c, c);
    Scale(w, g - c);
  }

  lemma MultipleAbove(w: nat, g: int, c: nat)
    requires w >= 1 && Times(w, g) - Times(c, w) > -(w as int)
    ensures Times(w, g) - Times(c, w) >= 0
  {
    TimesIsProduct(w, g);
    TimesIsProduct(c, w);
    ProductAbove(w, g, c);
  }

  lemma SomeoneWeighs(ms: seq<Member>)
    requires AnyEligible(ms)
    ensures Total(ms) >= 1
  {
    var e :| 0 <= e < |ms| && ms[e].eligible;
    TotalPositive(ms, e);
  }

  lemma NoneOwes(ms: seq<Member>, i: nat)
    requires AnyEligible(ms) && i < |ms|
    ensures Cur(ms, Total(ms))[i] >= 0
  {
    SomeoneWeighs(ms);
    CurAboveMinusTotal(ms, Total(ms));
    CurIsBalance(ms, i, Total(ms));
    MultipleAbove(Total(ms), ms[i].Gain(), Count(ms, i, Total(ms)));
  }

  /** After W picks every current is back at zero. */
  lemma BackToZero(ms: seq<Member>)
    requires AnyEligible(ms)
    ensures Cur(ms, Total(ms)) == Zeros(|ms|)
  {
    var cur := Cur(ms, Total(ms));
    forall i | 0 <= i < |ms| ensures cur[i] >= 0 { NoneOwes(ms, i); }
    SumOfCur(ms, Total(ms));
    NonNegativeSumZero(cur);
  }

  /** The currents, and so the picks, repeat with period W. */
  lemma {:induction false} Periodic(ms: seq<Member>, k: nat)
    requires AnyEligible(ms)
    ensures Cur(ms, k + Total(ms)) == Cur(ms, k)
    ensures PickAt(ms, k + Total(ms)) == PickAt(ms, k)
  {
    if k == 0 {
      BackToZero(ms);
    } else {
      Periodic(ms, k - 1);
      SameNext(ms, k - 1, k - 1 + Total(ms));
    }
  }

  lemma SameNext(ms: seq<Member>, a: nat, b: nat)
    requires Cur(ms, a) == Cur(ms, b)
    ensures Cur(ms, a + 1) == Cur(ms, b + 1)
  {}

  /**
   * Any W picks in a row choose an eligible member exactly as often as its weight says, once if its weight is
   * below 1, and an ineligible one never.
   */
  lemma ExactShare(ms: seq<Member>, i: nat, k: nat)
    requires AnyEligible(ms) && i < |ms|
    ensures ms[i].eligible && ms[i].weight >= 1 ==> Count(ms, i, k + Total(ms)) - Count(ms, i, k) == ms[i].weight
    ensures ms[i].eligible && ms[i].weight <= 0 ==> Count(ms, i, k + Total(ms)) - Count(ms, i, k) == 1
    ensures !ms[i].eligible ==> Count(ms, i, k + Total(ms)) == Count(ms, i, k)
  {
    var w := Total(ms);
    SomeoneWeighs(ms);
    Periodic(ms, k);
    CurIsBalance(ms, i, k);
    CurIsBalance(ms, i, k + w);
    SameBalance(k, w, ms[i].Gain(), Count(ms, i, k), Count(ms, i, k + w));
  }

  lemma SameBalance(k: nat, w: nat, g: int, c: nat, c': nat)
    requires w >= 1 && Times(k, g) - Times(c, w) == Times(k + w, g) - Times(c', w)
    ensures c' - c == g
  {
    TimesIsProduct(k, g);
    TimesIsProduct(k + w, g);
    TimesIsProduct(c, w);
    TimesIsProduct(c', w);
    Distribute(g, k, w);
    var d := g - (c' - c);
    Distribute(w, c' - c, c);
    Distribute(w, d, c' - c);
    Scale(w, d);
  }

  /** At no time has a member been chosen more than its share of the picks so far, rounded up. */
  lemma PrefixBound(ms: seq<Member>, i: nat, k: nat)
    requires AnyEligible(ms) && i < |ms|
    ensures Total(ms) > 0
    ensures ms[i].eligible && ms[i].weight >= 1 ==>
              Count(ms, i, k) <= (k * ms[i].weight + Total(ms) - 1) / Total(ms)
    ensures ms[i].eligible && ms[i].weight <= 0 ==> Count(ms, i, k) <= (k + Total(ms) - 1) / Total(ms)
    ensures !ms[i].eligible ==> Count(ms, i, k) == 0
  {
    SomeoneWeighs(ms);
    CurAboveMinusTotal(ms, k);
    CurIsBalance(ms, i, k);
    TimesIsProduct(k, ms[i].Gain());
    TimesIsProduct(Count(ms, i, k), Total(ms));
    QuotientBound(k * ms[i].Gain() + Total(ms) - 1, Total(ms), Count(ms, i, k));
  }

  lemma QuotientBound(x: int, w: int, c: int)
    requires w >= 1 && c * w <= x
    ensures c <= x / w
  {
    var q := x / w;
    Distribute(w, c - q, q);
    Scale(w, c - q);
  }

  /** With weights 4 and 1 the lighter member's turn comes in the middle. */
  lemma FourToOne()
    ensures var ms := [Member(true, 4), Member(true, 1)];
            PickAt(ms, 0) == 0 && PickAt(ms, 1) == 0 && PickAt(ms, 2) == 1 && PickAt(ms, 3) == 0 && PickAt(ms, 4) == 0
  {
    var ms := [Member(true, 4), Member(true, 1)];
    assert ms[..1] == [Member(true, 4)] && ms[..1][..0] == [];
    assert Total(ms) == 5;
    assert Cur(ms, 0) == [0, 0];
    NextOfTwo(ms, 0, 0, 0);
    NextOfTwo(ms, 1, -1, 1);
    NextOfTwo(ms, 2, -2, 2);
    NextOfTwo(ms, 3, 2, -2);
    NextOfTwo(ms, 4, 1, -1);
  }

  lemma NextOfTwo(ms: seq<Member>, k: nat, a: int, b: int)
    requires ms == [Member(true, 4), Member(true, 1)] && Total(ms) == 5 && Cur(ms, k) == [a, b]
    ensures PickAt(ms, k) == if b + 1 > a + 4 then 1 else 0
    ensures Cur(ms, k + 1) == if b + 1 > a + 4 then [a + 4, b - 4] else [a - 1, b + 1]
  {
    var cur := Cur(ms, k);
    assert BestOf(cur, ms, 1) == 0;
    assert BestOf(cur, ms, 2) == if b + 1 > a + 4 then 1 else 0;
  }
}
