/** The smooth weighted round robin balancer: every pick raises each connection's
    current weight by its weight, takes the first connection of largest current
    weight, and charges it the total. */
module WeightedRoundRobin {

  // ---------- Sums, products and maxima ----------

  function SumTo(s: seq<int>, n: nat): int
    requires n <= |s|
  {
    if n == 0 then 0 else SumTo(s, n - 1) + s[n - 1]
  }

  function Sum(s: seq<int>): int {
    SumTo(s, |s|)
  }

  lemma {:induction false} SumToUpdate(s: seq<int>, i: nat, x: int, n: nat)
    requires i < |s| && n <= |s|
    ensures SumTo(s[i := x], n) == SumTo(s, n) + if i < n then x - s[i] else 0
  {
    if n > 0 {
      SumToUpdate(s, i, x, n - 1);
    }
  }

  lemma {:induction false} SumToPointwise(a: seq<int>, b: seq<int>, c: seq<int>, n: nat)
    requires n <= |a| == |b| == |c|
    requires forall i :: 0 <= i < n ==> c[i] == a[i] + b[i]
    ensures SumTo(c, n) == SumTo(a, n) + SumTo(b, n)
  {
    if n > 0 {
      SumToPointwise(a, b, c, n - 1);
    }
  }

  lemma {:induction false} SumToZero(s: seq<int>, n: nat)
    requires n <= |s|
    requires forall i :: 0 <= i < n ==> s[i] == 0
    ensures SumTo(s, n) == 0
  {
    if n > 0 {
      SumToZero(s, n - 1);
    }
  }

  lemma {:induction false} PositiveElement(s: seq<int>, n: nat) returns (p: nat)
    requires n <= |s| && SumTo(s, n) > 0
    ensures p < n && s[p] > 0
  {
    if s[n - 1] > 0 {
      p := n - 1;
    } else {
      p := PositiveElement(s, n - 1);
    }
  }

  // The product t * n as repeated addition, which keeps inductions linear.
  function Times(t: int, n: nat): int {
    if n == 0 then 0 else Times(t, n - 1) + t
  }

  lemma {:induction false} TimesIsProduct(t: int, n: nat)
    ensures Times(t, n) == t * n
  {
    if n > 0 {
      TimesIsProduct(t, n - 1);
    }
  }

  lemma Distribute(t: int, a: int, b: int)
    ensures t * (a + b) == t * a + t * b
    ensures (a + b) * t == a * t + b * t
  {
  }

  lemma ScaleOrder(t: int, a: int, b: int)
    requires t > 0
    ensures a < b <==> t * a < t * b
  {
    if a < b {
      Distribute(t, a, b - a);
      assert t * (b - a) > 0;
    } else {
      Distribute(t, b, a - b);
      assert t * (a - b) >= 0;
    }
  }

  // A vector bounded below has a sum bounded below.
  lemma {:induction false} SumToBelow(s: seq<int>, low: int, n: nat)
    requires n <= |s|
    requires forall i :: 0 <= i < n ==> low <= s[i]
    ensures Times(low, n) <= SumTo(s, n)
  {
    if n > 0 {
      SumToBelow(s, low, n - 1);
    }
  }

  // No element exceeds what the lower bound on the others leaves over.
  lemma {:induction false} ElementBelow(s: seq<int>, low: int, i: nat, n: nat)
    requires i < n <= |s|
    requires forall j :: 0 <= j < n ==> low <= s[j]
    ensures s[i] + Times(low, n - 1) <= SumTo(s, n)
  {
    if i == n - 1 {
      SumToBelow(s, low, n - 1);
    } else {
      ElementBelow(s, low, i, n - 1);
    }
  }

  lemma {:induction false} TimesZero(n: nat)
    ensures Times(0, n) == 0
  {
    if n > 0 {
      TimesZero(n - 1);
    }
  }

  ghost predicate NonNegative(w: seq<int>) {
    forall i :: 0 <= i < |w| ==> 0 <= w[i]
  }

  lemma NonNegativeSum(w: seq<int>)
    requires NonNegative(w)
    ensures Sum(w) >= 0
    ensures forall i :: 0 <= i < |w| ==> w[i] <= Sum(w)
  {
    SumToBelow(w, 0, |w|);
    TimesZero(|w|);
    forall i: nat | i < |w| ensures w[i] <= Sum(w) {
      ElementBelow(w, 0, i, |w|);
      TimesZero(|w| - 1);
    }
  }

  // The index Pick's scan of the first n connections ends with.
  function FirstMaxTo(s: seq<int>, n: nat): (m: nat)
    requires 0 < n <= |s|
    ensures m < n
  {
    if n == 1 then 0
    else
      var m := FirstMaxTo(s, n - 1);
      if s[n - 1] > s[m] then n - 1 else m
  }

  function FirstMax(s: seq<int>): (m: nat)
    requires s != []
    ensures m < |s|
  {
    FirstMaxTo(s, |s|)
  }

  lemma {:induction false} FirstMaxIsLargest(s: seq<int>, n: nat)
    requires 0 < n <= |s|
    ensures forall i :: 0 <= i < n ==> s[i] <= s[FirstMaxTo(s, n)]
    ensures forall i :: 0 <= i < FirstMaxTo(s, n) ==> s[i] < s[FirstMaxTo(s, n)]
  {
    if n > 1 {
      FirstMaxIsLargest(s, n - 1);
    }
  }

  // ---------- One pick over unbounded integers ----------

  function Raised(w: seq<int>, cw: seq<int>): (r: seq<int>)
    requires |w| == |cw|
    ensures |r| == |w|
  {
    seq(|w|, i requires 0 <= i < |w| => cw[i] + w[i])
  }

  function Winner(w: seq<int>, cw: seq<int>): (m: nat)
    requires |w| == |cw| > 0
    ensures m < |w|
  {
    FirstMax(Raised(w, cw))
  }

  function Step(w: seq<int>, cw: seq<int>): (r: seq<int>)
    requires |w| == |cw| > 0
    ensures |r| == |w|
  {
    var raised, m := Raised(w, cw), Winner(w, cw);
    raised[m := raised[m] - Sum(w)]
  }

  // The current weights after k picks from the state PickerBuilder.Build makes,
  // in which every current weight is the weight.
  function After(w: seq<int>, k: nat): (cw: seq<int>)
    requires w != []
    ensures |cw| == |w|
  {
    if k == 0 then w else Step(w, After(w, k - 1))
  }

  // How many of the first k picks chose connection i.
  function Count(w: seq<int>, i: nat, k: nat): (c: nat)
    requires i < |w|
  {
    if k == 0 then 0
    else Count(w, i, k - 1) + if Winner(w, After(w, k - 1)) == i then 1 else 0
  }

  function Counts(w: seq<int>, k: nat): (c: seq<int>)
    requires w != []
    ensures |c| == |w|
  {
    seq(|w|, i requires 0 <= i < |w| => Count(w, i, k))
  }

  /** The winner is the first connection whose current weight plus weight no other exceeds. */
  lemma WinnerIsHeaviest(w: seq<int>, cw: seq<int>, i: nat)
    requires i < |w| == |cw|
    ensures var m := Winner(w, cw);
            cw[i] + w[i] <= cw[m] + w[m] && (i < m ==> cw[i] + w[i] < cw[m] + w[m])
  {
    FirstMaxIsLargest(Raised(w, cw), |w|);
    assert Raised(w, cw)[i] == cw[i] + w[i];
  }

  // ---------- Conservation, ledger and bounds ----------

  lemma StepAt(w: seq<int>, cw: seq<int>, i: nat)
    requires i < |w| == |cw|
    ensures Step(w, cw)[i] == cw[i] + w[i] - if Winner(w, cw) == i then Sum(w) else 0
  {
  }

  lemma StepKeepsSum(w: seq<int>, cw: seq<int>)
    requires |w| == |cw| > 0
    ensures Sum(Step(w, cw)) == Sum(cw)
    ensures Sum(Raised(w, cw)) == Sum(cw) + Sum(w)
  {
    var raised, m := Raised(w, cw), Winner(w, cw);
    SumToPointwise(cw, w, raised, |w|);
    SumToUpdate(raised, m, raised[m] - Sum(w), |w|);
  }

  /** Whatever the weights, picks never change the sum of the current weights. */
  lemma {:induction false} Conservation(w: seq<int>, k: nat)
    requires w != []
    ensures Sum(After(w, k)) == Sum(w)
  {
    hide Sum, Step;
    if k > 0 {
      Conservation(w, k - 1);
      StepKeepsSum(w, After(w, k - 1));
    }
  }

  lemma {:induction false} LedgerTimes(w: seq<int>, i: nat, k: nat)
    requires i < |w|
    ensures Times(Sum(w), Count(w, i, k)) == Times(w[i], k + 1) - After(w, k)[i]
  {
    hide Sum, Step, Winner;
    if k > 0 {
      LedgerTimes(w, i, k - 1);
      StepAt(w, After(w, k - 1), i);
    }
  }

  /** Whatever the weights, the current weights are the exact ledger of the picks made. */
  lemma Ledger(w: seq<int>, i: nat, k: nat)
    requires i < |w|
    ensures Sum(w) * Count(w, i, k) == (k + 1) * w[i] - After(w, k)[i]
  {
    hide *;
    LedgerTimes(w, i, k);
    LedgerProduct(Sum(w), Count(w, i, k), w[i], k + 1, After(w, k)[i]);
  }

  lemma LedgerProduct(total: int, count: nat, weight: int, rounds: nat, current: int)
    requires Times(total, count) == Times(weight, rounds) - current
    ensures total * count == rounds * weight - current
  {
    TimesIsProduct(total, count);
    TimesIsProduct(weight, rounds);
  }

  lemma {:induction false} CountsSum(w: seq<int>, k: nat)
    requires w != []
    ensures Sum(Counts(w, k)) == k
  {
    if k == 0 {
      SumToZero(Counts(w, 0), |w|);
    } else {
      CountsSum(w, k - 1);
      var before, m := Counts(w, k - 1), Winner(w, After(w, k - 1));
      SumToUpdate(before, m, before[m] + 1, |w|);
      assert Counts(w, k) == before[m := before[m] + 1];
    }
  }

  // The raised weights sum to twice the total, so the largest is positive and what
  // the winner keeps is above -total.
  lemma WinnerIsPositive(w: seq<int>, cw: seq<int>)
    requires |w| == |cw| > 0 && Sum(w) > 0 && Sum(cw) == Sum(w)
    ensures Raised(w, cw)[Winner(w, cw)] > 0
  {
    StepKeepsSum(w, cw);
    var p := PositiveElement(Raised(w, cw), |w|);
    FirstMaxIsLargest(Raised(w, cw), |w|);
  }

  lemma StepStaysAbove(w: seq<int>, cw: seq<int>)
    requires |w| == |cw| > 0 && NonNegative(w) && Sum(w) > 0 && Sum(cw) == Sum(w)
    requires forall i :: 0 <= i < |w| ==> -Sum(w) < cw[i]
    ensures forall i :: 0 <= i < |w| ==> -Sum(w) < Step(w, cw)[i]
  {
    WinnerIsPositive(w, cw);
  }

  lemma {:induction false} LowerBound(w: seq<int>, k: nat)
    requires w != [] && NonNegative(w) && Sum(w) > 0
    ensures forall i :: 0 <= i < |w| ==> -Sum(w) < After(w, k)[i]
  {
    hide Sum, Step;
    if k > 0 {
      LowerBound(w, k - 1);
      Conservation(w, k - 1);
      StepStaysAbove(w, After(w, k - 1));
    }
  }

  /** In every reachable state each current weight lies strictly above -total and at
      most n * total, so every prefix of picks is near-proportional. */
  lemma Bounds(w: seq<int>, i: nat, k: nat)
    requires i < |w| && NonNegative(w) && Sum(w) > 0
    ensures -Sum(w) < After(w, k)[i] <= |w| * Sum(w)
    ensures k * w[i] + w[i] - |w| * Sum(w) <= Sum(w) * Count(w, i, k) < k * w[i] + w[i] + Sum(w)
  {
    hide After, Step, Count;
    LowerBound(w, k);
    Conservation(w, k);
    ElementBelow(After(w, k), -Sum(w), i, |w|);
    hide *;
    LedgerTimes(w, i, k);
    BoundsProduct(Sum(w), |w|, Count(w, i, k), w[i], k, After(w, k)[i]);
  }

  lemma BoundsProduct(total: int, n: nat, count: nat, weight: int, k: nat, current: int)
    requires n > 0 && current + Times(-total, n - 1) <= total && -total < current
    requires Times(total, count) == Times(weight, k + 1) - current
    ensures current <= n * total
    ensures k * weight + weight - n * total <= total * count < k * weight + weight + total
  {
    LedgerProduct(total, count, weight, k + 1, current);
    TimesIsProduct(-total, n - 1);
    Distribute(total, n, -1);
    Distribute(weight, k, 1);
  }

  // ---------- Exact fairness ----------

  // Of naturals with sum 1, exactly one is 1.
  lemma {:induction false} UnitVector(d: seq<int>, n: nat) returns (s: nat)
    requires n <= |d| && NonNegative(d) && SumTo(d, n) == 1
    ensures s < n && d[s] == 1
    ensures forall j :: 0 <= j < n && j != s ==> d[j] == 0
  {
    if d[n - 1] == 0 {
      s := UnitVector(d, n - 1);
    } else {
      s := n - 1;
      SumToBelow(d, 0, n - 1);
      TimesZero(n - 1);
      forall j: nat | j < n - 1 ensures d[j] == 0 {
        ElementBelow(d, 0, j, n - 1);
        TimesZero(n - 2);
      }
    }
  }

  // Connection s is owed its whole total and every other connection is square.
  ghost predicate OnlyOwed(cw: seq<int>, s: nat, total: int) {
    s < |cw| && forall j :: 0 <= j < |cw| ==> cw[j] == if j == s then total else 0
  }

  // One pick before the cycle closes, every connection has had its weight of picks,
  // except one that is a single pick short.
  lemma OneShort(w: seq<int>) returns (s: nat)
    requires w != [] && NonNegative(w) && Sum(w) > 0
    ensures OnlyOwed(After(w, Sum(w) - 1), s, Sum(w)) && w[s] > 0
  {
    hide After, Count, Step;
    var total, cw, counts := Sum(w), After(w, Sum(w) - 1), Counts(w, Sum(w) - 1);
    var due := seq(|w|, i requires 0 <= i < |w| => w[i] - counts[i]);
    LowerBound(w, total - 1);
    forall i: nat | i < |w|
      ensures due[i] >= 0 && (due[i] == 0 ==> cw[i] == 0) && (due[i] == 1 ==> cw[i] == total)
    {
      LedgerTimes(w, i, total - 1);
      DuePicks(total, w[i], counts[i], cw[i]);
    }
    CountsSum(w, total - 1);
    SumToPointwise(due, counts, w, |w|);
    s := UnitVector(due, |w|);
  }

  lemma DuePicks(total: int, weight: int, count: nat, current: int)
    requires total > 0 && current > -total
    requires Times(total, count) == Times(weight, total) - current
    ensures weight - count >= 0
    ensures weight - count == 0 ==> current == 0
    ensures weight - count == 1 ==> current == total
  {
    LedgerProduct(total, count, weight, total, current);
    Distribute(total, weight - count, count);
    ScaleOrder(total, -1, weight - count);
  }

  // Raised by its weight, the owed connection is the only largest.
  lemma OwedWins(w: seq<int>, cw: seq<int>, s: nat)
    requires |w| == |cw| && NonNegative(w) && Sum(w) > 0
    requires OnlyOwed(cw, s, Sum(w)) && w[s] > 0
    ensures Winner(w, cw) == s && Step(w, cw) == w
  {
    NonNegativeSum(w);
    FirstMaxIsLargest(Raised(w, cw), |w|);
    assert Raised(w, cw)[s] <= Raised(w, cw)[Winner(w, cw)];
  }

  /** From the initial state, exactly total picks restore the whole vector. */
  lemma FullCycle(w: seq<int>)
    requires w != [] && NonNegative(w) && Sum(w) > 0
    ensures After(w, Sum(w)) == w
  {
    hide Sum, Step, OnlyOwed;
    var s := OneShort(w);
    OwedWins(w, After(w, Sum(w) - 1), s);
  }

  lemma {:induction false} Periodic(w: seq<int>, k: nat, end: nat)
    requires w != [] && NonNegative(w) && Sum(w) > 0 && end == k + Sum(w)
    ensures After(w, end) == After(w, k)
  {
    hide Sum, Step;
    if k == 0 {
      FullCycle(w);
    } else {
      Periodic(w, k - 1, end - 1);
    }
  }

  // Between picks k and end, connection i was chosen exactly its weight of times and
  // the current weights came back to what they were.
  ghost predicate ExactWindow(w: seq<int>, i: nat, k: nat, end: nat)
    requires i < |w| && k <= end
  {
    && Count(w, i, end) - Count(w, i, k) == w[i]
    && After(w, end) == After(w, k)
  }

  // Every window of total picks, wherever it starts, is exact for every connection.
  ghost predicate Fair(w: seq<int>)
    requires w != []
  {
    Sum(w) >= 0 && forall i: nat, k: nat, end: nat ::
      i < |w| && end == k + Sum(w) ==> ExactWindow(w, i, k, end)
  }

  lemma FairWindow(w: seq<int>, i: nat, k: nat, end: nat)
    requires i < |w| && NonNegative(w) && Sum(w) > 0 && end == k + Sum(w)
    ensures ExactWindow(w, i, k, end)
  {
    hide Sum, After, Count, Times;
    Periodic(w, k, end);
    LedgerTimes(w, i, k);
    LedgerTimes(w, i, end);
    WindowPicks(Sum(w), Count(w, i, end), Count(w, i, k), w[i], k, end, After(w, k)[i]);
  }

  lemma WindowPicks(total: int, late: nat, early: nat, weight: int, k: nat, end: nat, current: int)
    requires total > 0 && end == k + total
    requires Times(total, early) == Times(weight, k + 1) - current
    requires Times(total, late) == Times(weight, end + 1) - current
    ensures late - early == weight
  {
    LedgerProduct(total, early, weight, k + 1, current);
    LedgerProduct(total, late, weight, end + 1, current);
    Distribute(weight, k + 1, total);
    Distribute(total, late - early, early);
    ScaleOrder(total, late - early, weight);
    ScaleOrder(total, weight, late - early);
  }

  /** Picking is exactly fair over every window precisely when no weight is negative. */
  lemma ExactFairness(w: seq<int>)
    requires w != []
    ensures Fair(w) <==> NonNegative(w)
  {
    if NonNegative(w) {
      NonNegativeSum(w);
      forall i: nat, k: nat, end: nat | i < |w| && end == k + Sum(w)
        ensures ExactWindow(w, i, k, end)
      {
        if Sum(w) > 0 {
          FairWindow(w, i, k, end);
        }
      }
    }
    if Fair(w) {
      forall i: nat | i < |w| ensures 0 <= w[i] {
        assert ExactWindow(w, i, 0, Sum(w));
      }
    }
  }

  // ---------- Picks over Go's 64-bit int ----------

  const MAX_INT: int := 0x7FFF_FFFF_FFFF_FFFF
  const MIN_INT: int := -0x8000_0000_0000_0000

  function Wrap(x: int): (r: int)
    ensures MIN_INT <= r <= MAX_INT
    ensures MIN_INT <= x <= MAX_INT ==> r == x
  {
    (x - MIN_INT) % 0x1_0000_0000_0000_0000 + MIN_INT
  }

  lemma WrapCongruent(x: int)
    ensures (x - Wrap(x)) % 0x1_0000_0000_0000_0000 == 0
  {
  }

  function GoSumTo(s: seq<int>, n: nat): int
    requires n <= |s|
  {
    if n == 0 then 0 else Wrap(GoSumTo(s, n - 1) + s[n - 1])
  }

  function GoRaised(w: seq<int>, cw: seq<int>): (r: seq<int>)
    requires |w| == |cw|
    ensures |r| == |w|
  {
    seq(|w|, i requires 0 <= i < |w| => Wrap(cw[i] + w[i]))
  }

  function GoWinner(w: seq<int>, cw: seq<int>): (m: nat)
    requires |w| == |cw| > 0
    ensures m < |w|
  {
    FirstMax(GoRaised(w, cw))
  }

  function GoPay(raised: seq<int>, m: nat, total: int): (r: seq<int>)
    requires m < |raised|
    ensures |r| == |raised|
  {
    raised[m := Wrap(raised[m] - total)]
  }

  function GoStep(w: seq<int>, cw: seq<int>): (r: seq<int>)
    requires |w| == |cw| > 0
    ensures |r| == |w|
  {
    GoPay(GoRaised(w, cw), GoWinner(w, cw), GoSumTo(w, |w|))
  }

  function GoAfter(w: seq<int>, k: nat): (cw: seq<int>)
    requires w != []
    ensures |cw| == |w|
  {
    if k == 0 then w else GoStep(w, GoAfter(w, k - 1))
  }

  lemma WrapAgain(x: int, y: int)
    ensures Wrap(Wrap(x) + y) == Wrap(x + y)
  {
  }

  /** Summing machine ints wraps the sum. */
  lemma {:induction false} GoSumWraps(s: seq<int>, n: nat)
    requires n <= |s|
    ensures GoSumTo(s, n) == Wrap(SumTo(s, n))
  {
    if n > 0 {
      GoSumWraps(s, n - 1);
      WrapAgain(SumTo(s, n - 1), s[n - 1]);
    }
  }

  // m is the first index of a largest value.
  ghost predicate HeaviestFirst(values: seq<int>, m: nat) {
    && m < |values|
    && (forall i :: 0 <= i < |values| ==> values[i] <= values[m])
    && (forall i :: 0 <= i < m ==> values[i] < values[m])
  }

  // Index m has paid, and every other keeps what it was raised to.
  ghost predicate OnePays(after: seq<int>, raised: seq<int>, m: nat, pays: int) {
    && |after| == |raised|
    && forall i :: 0 <= i < |raised| ==> after[i] == if i == m then Wrap(raised[i] - pays) else raised[i]
  }

  lemma PickedHeaviest(w: seq<int>, cw: seq<int>, raised: seq<int>)
    requires |w| == |cw| == |raised| > 0
    requires forall i :: 0 <= i < |w| ==> raised[i] == Wrap(cw[i] + w[i])
    ensures HeaviestFirst(raised, GoWinner(w, cw))
    ensures OnePays(GoStep(w, cw), raised, GoWinner(w, cw), Wrap(SumTo(w, |w|)))
  {
    RaisedIs(w, cw, raised);
    GoSumWraps(w, |w|);
    PayIs(raised, GoWinner(w, cw), GoSumTo(w, |w|));
    FirstMaxIsLargest(raised, |raised|);
    hide Wrap, GoPay, GoRaised, SumTo, GoSumTo;
  }

  lemma RaisedIs(w: seq<int>, cw: seq<int>, raised: seq<int>)
    requires |w| == |cw| == |raised|
    requires forall i :: 0 <= i < |w| ==> raised[i] == Wrap(cw[i] + w[i])
    ensures raised == GoRaised(w, cw)
  {
    hide Wrap;
  }

  lemma PayIs(raised: seq<int>, m: nat, total: int)
    requires m < |raised|
    ensures OnePays(GoPay(raised, m, total), raised, m, total)
  {
    hide Wrap;
  }

  lemma {:induction false} GoSumExact(s: seq<int>, n: nat)
    requires n <= |s| && NonNegative(s) && SumTo(s, n) <= MAX_INT
    ensures GoSumTo(s, n) == SumTo(s, n) >= 0
  {
    if n > 0 {
      GoSumExact(s, n - 1);
    }
  }

  // The machine-int condition: (n + 1) * total fits.
  ghost predicate Fits(w: seq<int>) {
    NonNegative(w) && Times(Sum(w), |w| + 1) <= MAX_INT
  }

  // With every weight zero nothing ever moves and the first connection always wins.
  lemma {:induction false} AllZeroNeverMoves(w: seq<int>, k: nat)
    requires w != [] && forall i :: 0 <= i < |w| ==> w[i] == 0
    ensures After(w, k) == w && Winner(w, After(w, k)) == 0
  {
    SumToZero(w, |w|);
    FirstMaxIsLargest(Raised(w, w), |w|);
    assert Raised(w, w)[0] == Raised(w, w)[Winner(w, w)];
    if k > 0 {
      AllZeroNeverMoves(w, k - 1);
      assert Step(w, w) == w;
    }
  }

  // No sum Pick computes from a reachable state leaves the 64-bit range.
  lemma PickFits(w: seq<int>, i: nat, k: nat)
    requires i < |w| && Fits(w)
    ensures Sum(w) <= MAX_INT
    ensures MIN_INT <= After(w, k)[i] + w[i] <= MAX_INT
    ensures i == Winner(w, After(w, k)) ==> MIN_INT <= After(w, k)[i] + w[i] - Sum(w)
  {
    NonNegativeSum(w);
    TimesIsProduct(Sum(w), |w| + 1);
    hide After, Step, Count, Times;
    if Sum(w) > 0 {
      Bounds(w, i, k);
      FitsProduct(Sum(w), |w|);
      Conservation(w, k);
      WinnerIsPositive(w, After(w, k));
    } else {
      AllZeroNeverMoves(w, k);
    }
  }

  lemma FitsProduct(total: int, n: nat)
    requires total > 0 && total * (n + 1) <= MAX_INT
    ensures n * total + total <= MAX_INT && total <= MAX_INT
  {
    Distribute(total, n, 1);
  }

  lemma StepFits(w: seq<int>, k: nat)
    requires w != [] && Fits(w)
    ensures GoRaised(w, After(w, k)) == Raised(w, After(w, k))
    ensures GoStep(w, After(w, k)) == Step(w, After(w, k))
  {
    hide Times, After;
    forall i: nat | i < |w|
      ensures Wrap(After(w, k)[i] + w[i]) == After(w, k)[i] + w[i]
    {
      PickFits(w, i, k);
    }
    assert GoRaised(w, After(w, k)) == Raised(w, After(w, k));
    var m := Winner(w, After(w, k));
    PickFits(w, m, k);
    GoSumExact(w, |w|);
    NonNegativeSum(w);
  }

  /** With nonnegative weights no pick ever overflows a 64-bit int when (n + 1) * total
      fits one, so the machine's current weights and winners are the unbounded ones. */
  lemma {:induction false} NoOverflow(w: seq<int>, k: nat)
    requires w != [] && Fits(w)
    ensures GoAfter(w, k) == After(w, k)
    ensures GoWinner(w, GoAfter(w, k)) == Winner(w, After(w, k))
  {
    hide Step, GoStep, Fits;
    StepFits(w, k);
    if k > 0 {
      NoOverflow(w, k - 1);
      StepFits(w, k - 1);
    }
  }

  // ---------- The balancer's objects ----------

  datatype PickResult = Picked(subConn: int) | NoSubConnAvailable

  class WeightConn {
    const subConn: int
    const weight: int
    var currentWeight: int

    constructor (subConn: int, weight: int)
      ensures this.subConn == subConn && this.weight == weight && currentWeight == weight
    {
      this.subConn, this.weight, this.currentWeight := subConn, weight, weight;
    }
  }

  // What the address metadata of a ready connection says about its weight.
  datatype Metadata = Weight(value: int) | NoIntWeight

  class Picker {
    const conns: seq<WeightConn>

    // No connection is listed twice, so raising each in turn raises it once.
    ghost predicate Valid() {
      forall i, j :: 0 <= i < j < |conns| ==> conns[i] != conns[j]
    }

    ghost function Weights(): (w: seq<int>)
      ensures |w| == |conns|
    {
      seq(|conns|, i requires 0 <= i < |conns| => conns[i].weight)
    }

    ghost function Current(): (cw: seq<int>)
      reads conns
      ensures |cw| == |conns|
    {
      seq(|conns|, i requires 0 <= i < |conns| reads conns => conns[i].currentWeight)
    }

    // PickerBuilder.Build: one connection per ready sub-connection, in iteration order.
    constructor Build(ready: seq<(int, Metadata)>)
      ensures Valid() && fresh(conns) && |conns| == |ready|
      ensures Current() == Weights()
      ensures forall i :: 0 <= i < |ready| ==>
        conns[i].subConn == ready[i].0 &&
        conns[i].weight == if ready[i].1.Weight? then ready[i].1.value else 0
    {
      var built: seq<WeightConn> := [];
      for n := 0 to |ready|
        invariant |built| == n && fresh(built)
        invariant forall i, j :: 0 <= i < j < n ==> built[i] != built[j]
        invariant forall i :: 0 <= i < n ==>
          built[i].subConn == ready[i].0 &&
          built[i].weight == (if ready[i].1.Weight? then ready[i].1.value else 0) &&
          built[i].currentWeight == built[i].weight
      {
        var weight := if ready[n].1.Weight? then ready[n].1.value else 0;
        var conn := new WeightConn(ready[n].0, weight);
        built := built + [conn];
      }
      conns := built;
    }

    method Total() returns (total: int)
      ensures total == GoSumTo(Weights(), |conns|)
    {
      total := 0;
      for n := 0 to |conns|
        invariant total == GoSumTo(Weights(), n)
      {
        total := Wrap(total + conns[n].weight);
      }
    }

    method Raise()
      requires Valid()
      modifies conns
      ensures Current() == GoRaised(Weights(), old(Current()))
    {
      for n := 0 to |conns|
        invariant forall i :: 0 <= i < n ==>
          conns[i].currentWeight == Wrap(old(conns[i].currentWeight) + conns[i].weight)
        invariant forall i :: n <= i < |conns| ==> conns[i].currentWeight == old(conns[i].currentWeight)
      {
        conns[n].currentWeight := Wrap(conns[n].currentWeight + conns[n].weight);
      }
    }

    method Heaviest() returns (maxCC: WeightConn, ghost m: nat)
      requires conns != []
      ensures maxCC == conns[FirstMax(Current())] && m == FirstMax(Current())
    {
      maxCC, m := conns[0], 0;
      for n := 0 to |conns|
        invariant m < |conns| && maxCC == conns[m]
        invariant m == if n == 0 then 0 else FirstMaxTo(Current(), n)
      {
        if conns[n].currentWeight > maxCC.currentWeight {
          maxCC, m := conns[n], n;
        }
      }
    }

    method Charge(maxCC: WeightConn, ghost m: nat, total: int)
      requires m < |conns| && maxCC == conns[m] && Valid()
      modifies maxCC
      ensures Current() == old(Current())[m := Wrap(old(Current()[m]) - total)]
    {
      maxCC.currentWeight := Wrap(maxCC.currentWeight - total);
    }

    // Every connection's current weight once raised by its weight.
    ghost function RaisedWeights(): (raised: seq<int>)
      reads conns
      ensures |raised| == |conns|
      ensures forall i :: 0 <= i < |conns| ==> raised[i] == Wrap(conns[i].currentWeight + conns[i].weight)
    {
      seq(|conns|, i requires 0 <= i < |conns| reads conns => Wrap(conns[i].currentWeight + conns[i].weight))
    }

    // Connection m has paid, and every other keeps what it was raised to.
    ghost predicate Charged(raised: seq<int>, m: nat, pays: int)
      reads conns
    {
      && |raised| == |conns|
      && forall i :: 0 <= i < |conns| ==>
           conns[i].currentWeight == if i == m then Wrap(raised[i] - pays) else raised[i]
    }

    /** Raised by its weight, the connection picked is a heaviest one and the first such; it
        pays the total, and every other keeps its raised weight. */
    method Pick() returns (r: PickResult, ghost m: nat)
      requires Valid()
      modifies conns
      ensures conns == [] ==> r == NoSubConnAvailable
      ensures conns != [] ==> m < |conns| && r == Picked(conns[m].subConn)
      ensures conns != [] ==> HeaviestFirst(old(RaisedWeights()), m)
      ensures conns != [] ==> Charged(old(RaisedWeights()), m, Wrap(SumTo(Weights(), |conns|)))
      ensures conns != [] ==> m == GoWinner(Weights(), old(Current()))
      ensures conns != [] ==> Current() == GoStep(Weights(), old(Current()))
    {
      if |conns| == 0 {
        r, m := NoSubConnAvailable, 0;
      } else {
        ghost var w, before, raised := Weights(), Current(), RaisedWeights();
        ghost var pays := Wrap(SumTo(w, |w|));
        PickedHeaviest(w, before, raised);
        r, m := PickHeaviest();
        hide *;
        ChargedIs(raised, m, pays, GoStep(w, before));
      }
    }

    lemma ChargedIs(raised: seq<int>, m: nat, pays: int, after: seq<int>)
      requires after == Current() && OnePays(after, raised, m, pays)
      ensures Charged(raised, m, pays)
    {
      hide Wrap;
      forall i | 0 <= i < |conns| ensures conns[i].currentWeight == after[i] {
      }
    }

    method PickHeaviest() returns (r: PickResult, ghost m: nat)
      requires Valid() && conns != []
      modifies conns
      ensures m == GoWinner(Weights(), old(Current())) && r == Picked(conns[m].subConn)
      ensures Current() == GoStep(Weights(), old(Current()))
    {
      hide GoRaised, FirstMax, GoSumTo, Wrap, Weights, Current, Valid;
      var total := Total();
      Raise();
      var maxCC;
      maxCC, m := Heaviest();
      Charge(maxCC, m, total);
      r := Picked(maxCC.subConn);
    }
  }
}
