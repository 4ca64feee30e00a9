/** The load test's measurements: percentiles of age, read off a histogram or off the sorted ages, and the
order check on every frame. */
module LoadTest {
  import opened Wire
  import opened Arbiter
  import opened Modes
  import opened Stats

  // ---------- The histogram ----------

  /** One bucket per millisecond, and the last one is everything beyond. */
  const AGE_BUCKETS: nat := 120_001

  function Clamped(age: nat, buckets: nat): nat
    requires buckets > 0
  {
    if age < buckets then age else buckets - 1
  }

  /** One more age in its bucket; the buckets are 32 bits wide. */
  function Filled(hist: seq<nat>, age: nat): (r: seq<nat>)
    requires hist != []
    ensures |r| == |hist|
  {
    var b := Clamped(age, |hist|);
    hist[b := (hist[b] + 1) % U32]
  }

  function Zeros(n: nat): seq<nat> {
    seq(n, _ => 0)
  }

  function Hist(ages: seq<nat>, buckets: nat): (r: seq<nat>)
    requires buckets > 0
    ensures |r| == buckets
  {
    if ages == [] then Zeros(buckets) else Filled(Hist(ages[..|ages| - 1], buckets), ages[|ages| - 1])
  }

  method NoteAge(hist: array<nat>, age: nat)
    requires hist.Length > 0
    modifies hist
    ensures hist[..] == Filled(old(hist[..]), age)
  {
    var b := if age < hist.Length - 1 then age else hist.Length - 1;
    hist[b] := (hist[b] + 1) % U32;
  }

  method FillHistogram(ages: seq<nat>, buckets: nat) returns (hist: array<nat>)
    requires buckets > 0
    ensures fresh(hist) && hist[..] == Hist(ages, buckets)
  {
    hist := new nat[buckets](_ => 0);
    assert hist[..] == Zeros(buckets);
    for i := 0 to |ages|
      invariant hist[..] == Hist(ages[..i], buckets)
    {
      assert ages[..i + 1][..i] == ages[..i];
      NoteAge(hist, ages[i]);
    }
    assert ages[..|ages|] == ages;
  }

  /** The rank a percentile asks for among `n` values; a negative one saturates. */
  function Rank(n: nat, p: real): nat
    requires n > 0
  {
    var k := ((n - 1) as real * p).Floor;
    if k < 0 then 0 else k
  }

  /** The rank is the whole part of the percentile's share of the way to the last value, and the first for a
      negative one. */
  predicate IsRank(k: nat, n: nat, p: real) {
    if p < 0.0 then k == 0 else k as real <= (n - 1) as real * p < k as real + 1.0
  }

  lemma RankMeans(n: nat, p: real)
    requires n > 0
    ensures IsRank(Rank(n, p), n, p)
  {
    var x := (n - 1) as real * p;
    if p < 0.0 {
      assert x <= 0.0;
    } else {
      assert x >= 0.0;
    }
  }

  lemma RankWithin(n: nat, p: real)
    requires n > 0 && p <= 1.0
    ensures Rank(n, p) < n
  {
    var top := (n - 1) as real;
    assert top * p <= top;
  }

  /** The value at a rank, read off a histogram: as many counts lie below it as the rank says, at most,
      and more with its own. */
  predicate AtRank(hist: seq<nat>, k: nat, r: nat) {
    r < |hist| && Sum(hist[..r]) <= k < Sum(hist[..r + 1])
  }

  /** Percentile read off a histogram. */
  method PctOf(hist: seq<nat>, p: real) returns (r: nat)
    ensures Sum(hist) == 0 ==> r == 0
    ensures Sum(hist) > 0 && Rank(Sum(hist), p) < Sum(hist) ==> AtRank(hist, Rank(Sum(hist), p), r)
    ensures Sum(hist) > 0 && Rank(Sum(hist), p) >= Sum(hist) ==> r == |hist| - 1
  {
    var total := 0;
    for i := 0 to |hist|
      invariant total == Sum(hist[..i])
    {
      assert hist[..i + 1][..i] == hist[..i];
      total := total + hist[i];
    }
    assert hist[..|hist|] == hist;
    if total == 0 {
      return 0;
    }
    var want := Rank(total, p);
    var seen := 0;
    for i := 0 to |hist|
      invariant seen == Sum(hist[..i]) <= want
    {
      assert hist[..i + 1][..i] == hist[..i];
      seen := seen + hist[i];
      if seen > want {
        PrefixAtMostSum(hist, i + 1);
        return i;
      }
    }
    r := |hist| - 1;
  }

  lemma {:induction false} PrefixAtMostSum(s: seq<nat>, i: nat)
    requires i <= |s|
    ensures Sum(s[..i]) <= Sum(s)
  {
    if i < |s| {
      assert s[..|s| - 1][..i] == s[..i];
      PrefixAtMostSum(s[..|s| - 1], i);
    } else {
      assert s[..i] == s;
    }
  }

  // ---------- Against the sorted ages ----------

  ghost predicate Sorted(s: seq<nat>) {
    forall i, j :: 0 <= i <= j < |s| ==> s[i] <= s[j]
  }

  function Below(s: seq<nat>, x: nat): nat {
    if s == [] then 0 else Below(s[..|s| - 1], x) + if s[|s| - 1] < x then 1 else 0
  }

  lemma {:induction false} BelowWithin(s: seq<nat>, x: nat)
    ensures Below(s, x) <= |s|
    ensures (forall a <- s :: a < x) ==> Below(s, x) == |s|
    ensures (forall a <- s :: a >= x) ==> Below(s, x) == 0
  {
    if s != [] {
      var k := |s| - 1;
      assert s[k] in s;
      assert forall a <- s[..k] :: a in s;
      BelowWithin(s[..k], x);
    }
  }

  lemma {:induction false} BelowAppend(s: seq<nat>, t: seq<nat>, x: nat)
    ensures Below(s + t, x) == Below(s, x) + Below(t, x)
  {
    if t == [] {
      assert s + t == s;
    } else {
      assert (s + t)[..|s + t| - 1] == s + t[..|t| - 1];
      BelowAppend(s, t[..|t| - 1], x);
    }
  }

  lemma BelowWithout(t: seq<nat>, i: nat, x: nat)
    requires i < |t|
    ensures Below(t, x) == Below(t[..i] + t[i + 1..], x) + if t[i] < x then 1 else 0
  {
    var head, tail := t[..i], t[i + 1..];
    assert t == head + ([t[i]] + tail);
    BelowAppend(head, tail, x);
    BelowAppend(head, [t[i]] + tail, x);
    BelowAppend([t[i]], tail, x);
  }

  lemma TakeOut(t: seq<nat>, i: nat)
    requires i < |t|
    ensures multiset(t[..i] + t[i + 1..]) == multiset(t) - multiset{t[i]}
  {
    assert t == t[..i] + [t[i]] + t[i + 1..];
  }

  /** How many values lie below a bound does not depend on their order. */
  lemma {:induction false} BelowIgnoresOrder(s: seq<nat>, t: seq<nat>, x: nat)
    requires multiset(s) == multiset(t)
    ensures Below(s, x) == Below(t, x)
    decreases |s|
  {
    assert |s| == |multiset(s)| == |multiset(t)| == |t|;
    if s != [] {
      var k := |s| - 1;
      TakeOut(s, k);
      assert s[..k] + s[k + 1..] == s[..k];
      assert s[k] in multiset(t);
      var i :| 0 <= i < |t| && t[i] == s[k];
      TakeOut(t, i);
      BelowWithout(t, i, x);
      BelowIgnoresOrder(s[..k], t[..i] + t[i + 1..], x);
    }
  }

  /** In sorted order, the value at a rank is below a bound exactly when the rank is among those below. */
  lemma SortedBelow(s: seq<nat>, x: nat, k: nat)
    requires Sorted(s) && k < |s|
    ensures s[k] < x <==> k < Below(s, x)
  {
    assert s == s[..k] + s[k..];
    BelowAppend(s[..k], s[k..], x);
    if s[k] < x {
      assert s == s[..k + 1] + s[k + 1..];
      BelowAppend(s[..k + 1], s[k + 1..], x);
      BelowWithin(s[..k + 1], x);
    } else {
      BelowWithin(s[k..], x);
      BelowWithin(s[..k], x);
    }
  }

  // ---------- What the buckets count ----------

  /** How many ages fall into a bucket. */
  function Tally(ages: seq<nat>, b: nat, buckets: nat): nat
    requires buckets > 0
  {
    if ages == [] then 0
    else
      var k := |ages| - 1;
      Tally(ages[..k], b, buckets) + if Clamped(ages[k], buckets) == b then 1 else 0
  }

  function Tallies(ages: seq<nat>, buckets: nat): (r: seq<nat>)
    requires buckets > 0
    ensures |r| == buckets
  {
    seq(buckets, b requires 0 <= b < buckets => Tally(ages, b, buckets))
  }

  /** No bucket is asked to count further than 32 bits go. */
  ghost predicate NoBucketFills(ages: seq<nat>, buckets: nat)
    requires buckets > 0
  {
    forall b :: 0 <= b < buckets ==> Tally(ages, b, buckets) < U32
  }

  /** A bucket holds its tally, up to the width of its counter. */
  lemma {:induction false} BucketHolds(ages: seq<nat>, buckets: nat, b: nat)
    requires b < buckets
    ensures Hist(ages, buckets)[b] == Tally(ages, b, buckets) % U32
  {
    if ages != [] {
      BucketHolds(ages[..|ages| - 1], buckets, b);
      WrapsOnce(Tally(ages[..|ages| - 1], b, buckets));
    }
  }

  lemma WrapsOnce(n: nat)
    ensures (n % U32 + 1) % U32 == (n + 1) % U32
  {
  }

  lemma {:induction false} OneMore(s: seq<nat>, t: seq<nat>, b: nat, i: nat)
    requires |s| == |t| && b < |s| && i <= |s|
    requires t == s[b := s[b] + 1]
    ensures Sum(t[..i]) == Sum(s[..i]) + if b < i then 1 else 0
  {
    if i > 0 {
      assert t[..i][..i - 1] == t[..i - 1] && s[..i][..i - 1] == s[..i - 1];
      OneMore(s, t, b, i - 1);
    }
  }

  lemma {:induction false} ZerosSum(n: nat)
    ensures Sum(Zeros(n)) == 0
  {
    if n > 0 {
      assert Zeros(n)[..n - 1] == Zeros(n - 1);
      ZerosSum(n - 1);
    }
  }

  /** Up to any bucket, the tallies count the ages below it; the last bucket has the rest. */
  lemma {:induction false} TalliesCount(ages: seq<nat>, buckets: nat, i: nat)
    requires 0 < buckets && i <= buckets
    ensures Sum(Tallies(ages, buckets)[..i]) == if i == buckets then |ages| else Below(ages, i)
  {
    var t := Tallies(ages, buckets);
    if ages == [] {
      assert t[..i] == Zeros(i);
      ZerosSum(i);
    } else {
      var k := |ages| - 1;
      var before := Tallies(ages[..k], buckets);
      var b := Clamped(ages[k], buckets);
      assert t == before[b := before[b] + 1];
      TalliesCount(ages[..k], buckets, i);
      OneMore(before, t, b, i);
    }
  }

  /** Counters that wrap add up to no more than what they count, and to all of it exactly when none
      wraps. */
  lemma {:induction false} WrappedSum(s: seq<nat>, t: seq<nat>)
    requires |s| == |t| && forall i :: 0 <= i < |s| ==> t[i] == s[i] % U32
    ensures Sum(t) <= Sum(s)
    ensures Sum(t) == Sum(s) <==> forall i :: 0 <= i < |s| ==> s[i] < U32
  {
    if s != [] {
      var k := |s| - 1;
      WrappedSum(s[..k], t[..k]);
      WrapsAt(s[k]);
      assert forall i :: 0 <= i < k ==> s[..k][i] == s[i];
    }
  }

  lemma WrapsAt(n: nat)
    ensures n % U32 <= n && (n % U32 == n <==> n < U32)
  {
  }

  /** The histogram counts every age exactly when no bucket fills. */
  lemma NothingVanishesIff(ages: seq<nat>, buckets: nat)
    requires 0 < buckets
    ensures Sum(Hist(ages, buckets)) == |ages| <==> NoBucketFills(ages, buckets)
    ensures NoBucketFills(ages, buckets) ==> Hist(ages, buckets) == Tallies(ages, buckets)
  {
    var s, t := Tallies(ages, buckets), Hist(ages, buckets);
    forall b | 0 <= b < buckets ensures t[b] == s[b] % U32 {
      BucketHolds(ages, buckets, b);
    }
    WrappedSum(s, t);
    TalliesCount(ages, buckets, buckets);
    assert s[..buckets] == s;
    hide Hist, Tally;
    assert NoBucketFills(ages, buckets) <==> forall b :: 0 <= b < buckets ==> s[b] < U32 by {
      assert forall b :: 0 <= b < buckets ==> s[b] == Tally(ages, b, buckets);
    }
    if NoBucketFills(ages, buckets) {
      forall b | 0 <= b < buckets ensures t[b] == s[b] {
        WrapsAt(s[b]);
      }
    }
  }

  /** The histogram percentile refines the sorted one: whatever the ages, the histogram's value at a rank
      is the sorted ages' value at it, clamped to the last bucket. */
  lemma HistogramRefinesSorted(ages: seq<nat>, sorted: seq<nat>, buckets: nat, k: nat, r: nat)
    requires 0 < buckets && NoBucketFills(ages, buckets) && k < |ages|
    requires Sorted(sorted) && multiset(sorted) == multiset(ages)
    requires AtRank(Hist(ages, buckets), k, r)
    ensures |sorted| == |ages| && r == Clamped(sorted[k], buckets)
  {
    hide Hist, NoBucketFills, Below, Tallies, Sum, Sorted;
    assert |sorted| == |multiset(sorted)| == |ages|;
    NothingVanishesIff(ages, buckets);
    TalliesCount(ages, buckets, r);
    TalliesCount(ages, buckets, r + 1);
    BelowIgnoresOrder(ages, sorted, r);
    BelowIgnoresOrder(ages, sorted, r + 1);
    SortedBelow(sorted, r, k);
    SortedBelow(sorted, r + 1, k);
  }

  /** Filling the histogram and reading a percentile off it gives the sorted ages' percentile, clamped. */
  method PercentileOfAges(ages: seq<nat>, sorted: seq<nat>, p: real) returns (r: nat)
    requires ages != [] && NoBucketFills(ages, AGE_BUCKETS) && p <= 1.0
    requires Sorted(sorted) && multiset(sorted) == multiset(ages)
    ensures |sorted| == |ages| && Rank(|ages|, p) < |ages| && IsRank(Rank(|ages|, p), |ages|, p)
    ensures var age := sorted[Rank(|ages|, p)]; r == if age < 120_000 then age else 120_000
  {
    var hist := FillHistogram(ages, AGE_BUCKETS);
    r := PctOf(hist[..], p);
    NothingVanishesIff(ages, AGE_BUCKETS);
    RankWithin(|ages|, p);
    RankMeans(|ages|, p);
    HistogramRefinesSorted(ages, sorted, AGE_BUCKETS, Rank(|ages|, p), r);
  }

  lemma {:induction false} EqualAgesTally(age: nat, n: nat, b: nat, buckets: nat)
    requires b < buckets
    ensures Tally(seq(n, _ => age), b, buckets) == if Clamped(age, buckets) == b then n else 0
  {
    if n > 0 {
      assert seq(n, _ => age)[..n - 1] == seq(n - 1, _ => age);
      EqualAgesTally(age, n - 1, b, buckets);
    }
  }

  /** A bucket can fill: as many equal ages as it can count vanish, and the histogram reads empty. */
  lemma FullBucketVanishes(age: nat, buckets: nat)
    requires 0 < buckets
    ensures !NoBucketFills(seq(U32, _ => age), buckets)
    ensures Sum(Hist(seq(U32, _ => age), buckets)) == 0
  {
    var ages := seq(U32, _ => age);
    EqualAgesTally(age, U32, Clamped(age, buckets), buckets);
    forall b | 0 <= b < buckets ensures Hist(ages, buckets)[b] == 0 {
      BucketHolds(ages, buckets, b);
      EqualAgesTally(age, U32, b, buckets);
    }
    assert Hist(ages, buckets) == Zeros(buckets);
    ZerosSum(buckets);
  }

  // ---------- Order ----------

  const VIOLATIONS_KEPT: nat := 64

  /** The order check's state: the last value, the number of violations, and the first of them. */
  datatype Order = Order(last: Option<nat>, count: nat, kept: seq<(nat, nat)>)

  const UNORDERED := Order(None, 0, [])

  function Checked(o: Order, ord: Seq): Order {
    if ord.Snapshot? then o.(last := None)
    else
      var noted :=
        if o.last.Some? && ord.stamp < o.last.value then
          o.(count := o.count + 1,
             kept := if |o.kept| < VIOLATIONS_KEPT then o.kept + [(o.last.value, ord.stamp)] else o.kept)
        else o;
      noted.(last := Some(ord.stamp))
  }

  class KeyStats {
    var lastSeq: Option<nat>
    var violationCount: nat
    var violations: seq<(nat, nat)>

    ghost function View(): Order
      reads this
    {
      Order(lastSeq, violationCount, violations)
    }

    constructor ()
      ensures View() == UNORDERED
    {
      lastSeq, violationCount, violations := None, 0, [];
    }

    method OrderFrame(ord: Seq)
      modifies this
      ensures View() == Checked(old(View()), ord)
    {
      match ord
      case Snapshot(_) =>
        lastSeq := None;
      case _ =>
        var v := ord.stamp;
        if lastSeq.Some? && v < lastSeq.value {
          violationCount := violationCount + 1;
          if |violations| < VIOLATIONS_KEPT {
            violations := violations + [(lastSeq.value, v)];
          }
        }
        lastSeq := Some(v);
    }
  }

  function CheckedAll(ords: seq<Seq>): Order {
    if ords == [] then UNORDERED else Checked(CheckedAll(ords[..|ords| - 1]), ords[|ords| - 1])
  }

  /** A frame directly after a newer one, neither being a snapshot. */
  predicate Falls(ords: seq<Seq>, i: nat)
    requires i < |ords|
  {
    i > 0 && !ords[i].Snapshot? && !ords[i - 1].Snapshot? && ords[i].stamp < ords[i - 1].stamp
  }

  function Falling(ords: seq<Seq>): seq<(nat, nat)> {
    if ords == [] then []
    else
      var k := |ords| - 1;
      Falling(ords[..k]) + if Falls(ords, k) then [(ords[k - 1].stamp, ords[k].stamp)] else []
  }

  /** The check counts exactly the frames that fall back behind the one before them, and keeps the first
      sixty-four. */
  lemma {:induction false} ChecksExactly(ords: seq<Seq>)
    ensures var (o, f) := (CheckedAll(ords), Falling(ords));
            && o.count == |f|
            && o.kept == f[..if |f| < 64 then |f| else 64]
            && o.last == if ords == [] || ords[|ords| - 1].Snapshot? then None else Some(ords[|ords| - 1].stamp)
  {
    if ords != [] {
      ChecksExactly(ords[..|ords| - 1]);
    }
  }

  /** Nothing falls back exactly when the values never decrease between snapshots. */
  lemma {:induction false} NothingFallsIff(ords: seq<Seq>)
    ensures Falling(ords) == [] <==> forall i :: 0 <= i < |ords| ==> !Falls(ords, i)
  {
    if ords != [] {
      var k := |ords| - 1;
      NothingFallsIff(ords[..k]);
      assert forall i :: 0 <= i < k ==> (Falls(ords[..k], i) <==> Falls(ords, i));
    }
  }

  function Ords(run: seq<Arrival>): seq<Seq> {
    seq(|run|, i requires 0 <= i < |run| => run[i].msg.ord)
  }

  /** On every raced channel the order check finds nothing to say about what the arbiter forwards. */
  lemma RacedOutputNeverFalls(key: SubKey, run: seq<Arrival>)
    requires forall a <- run :: !a.msg.ord.Sticky?
    ensures CheckedAll(Ords(Out(key, run))).count == 0
  {
    OutBounded(key, run);
    ChecksExactly(Ords(Out(key, run)));
    NothingFallsIff(Ords(Out(key, run)));
  }
}
