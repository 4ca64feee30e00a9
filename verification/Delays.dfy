/** Who is charged a delay, and how often, when positions of a block are raced. */
module Delays {
  import opened Wire
  import opened Arbiter
  import opened Modes
  import opened Stats

  ghost predicate ChargedAt(key: SubKey, run: seq<Arrival>, i: nat)
    requires i < |run|
  {
    RulingAt(key, run, i).late.Some?
  }

  /** Some source sharing bit `b` was charged for stamp `h` within the run. */
  ghost predicate BitCharged(key: SubKey, run: seq<Arrival>, b: nat, h: nat) {
    exists j :: 0 <= j < |run| && run[j].Stamp() == h && SourceBit(run[j].Src()) == b && ChargedAt(key, run, j)
  }

  /** The bit belongs to the source that opened stamp `h`. */
  ghost predicate OpenersBit(run: seq<Arrival>, b: nat, h: nat) {
    h > 0 && FirstWith(run, h) < |run| && b == SourceBit(run[FirstWith(run, h)].Src())
  }

  ghost predicate SampledInv(key: SubKey, run: seq<Arrival>, arb: Arb) {
    && IsNewestStamp(run, arb.last)
    && arb.needsSnapshot == {}
    && forall b :: b in arb.sampled <==> OpenersBit(run, b, arb.last) || BitCharged(key, run, b, arb.last)
  }

  lemma RulingPrefix(key: SubKey, run: seq<Arrival>, k: nat, j: nat)
    requires j < k <= |run|
    ensures RulingAt(key, run[..k], j) == RulingAt(key, run, j)
  {
    assert run[..k][..j] == run[..j];
  }

  lemma ChargedEarlier(key: SubKey, run: seq<Arrival>, k: nat, b: nat, h: nat)
    requires k <= |run| && BitCharged(key, run[..k], b, h)
    ensures BitCharged(key, run, b, h)
  {
    hide RulingAt;
    var j :| 0 <= j < k && run[..k][j].Stamp() == h && SourceBit(run[..k][j].Src()) == b
             && ChargedAt(key, run[..k], j);
    RulingPrefix(key, run, k, j);
    assert run[j].Stamp() == h;
  }

  lemma BitChargedAppend(key: SubKey, run: seq<Arrival>, b: nat, h: nat)
    requires run != []
    ensures var k := |run| - 1;
            BitCharged(key, run, b, h) <==>
              || BitCharged(key, run[..k], b, h)
              || (run[k].Stamp() == h && SourceBit(run[k].Src()) == b && ChargedAt(key, run, k))
  {
    hide RulingAt;
    var k := |run| - 1;
    if BitCharged(key, run[..k], b, h) {
      ChargedEarlier(key, run, k, b, h);
    }
    if BitCharged(key, run, b, h) {
      var j :| 0 <= j < |run| && run[j].Stamp() == h && SourceBit(run[j].Src()) == b && ChargedAt(key, run, j);
      if j < k {
        RulingPrefix(key, run, k, j);
        assert run[..k][j].Stamp() == h;
      }
    }
  }

  lemma OpenersBitAppend(init: seq<Arrival>, a: Arrival, b: nat, h: nat)
    ensures OpenersBit(init + [a], b, h) <==>
              || OpenersBit(init, b, h)
              || (h > 0 && FirstWith(init, h) == |init| && a.Stamp() == h && b == SourceBit(a.Src()))
  {
    FirstWithAppend(init, a, h);
  }

  lemma {:induction false} SampledState(key: SubKey, run: seq<Arrival>)
    requires AllBlock(run)
    ensures SampledInv(key, run, After(key, run))
  {
    if run != [] {
      var k := |run| - 1;
      SampledState(key, run[..k]);
      assert run[k] in run;
      SampledStep(key, run);
    }
  }

  /** What one raced frame does to the set of sampled bits. */
  lemma SampledRule(arb: Arb, src: nat, h: nat, now: nat)
    requires arb.needsSnapshot == {}
    ensures var r := RuleBlock(arb, src, h, now);
            && r.arb.needsSnapshot == {}
            && r.arb.last == (if h > arb.last then h else arb.last)
            && (h > arb.last ==> r.arb.sampled == {SourceBit(src)} && r.late.None?)
            && (h < arb.last ==> r.arb.sampled == arb.sampled && r.late.None? && !r.deliver)
            && (h == arb.last ==>
                  && (r.late.Some? <==> !r.deliver && SourceBit(src) !in arb.sampled)
                  && r.arb.sampled == if r.late.Some? then arb.sampled + {SourceBit(src)} else arb.sampled)
  {
  }

  lemma NothingChargedYet(key: SubKey, run: seq<Arrival>, v: nat, h: nat)
    requires IsNewestStamp(run, v) && h > v
    ensures FirstWith(run, h) == |run|
    ensures forall b :: !BitCharged(key, run, b, h) && !OpenersBit(run, b, h)
  {
  }

  lemma SampledStep(key: SubKey, run: seq<Arrival>)
    requires run != [] && run[|run| - 1].msg.ord.Block?
    requires SampledInv(key, run[..|run| - 1], After(key, run[..|run| - 1]))
    ensures SampledInv(key, run, After(key, run))
  {
    var k := |run| - 1;
    var init, a := run[..k], run[k];
    var arb, next := After(key, init), After(key, run);
    assert run == init + [a];
    NewestAppend(init, arb.last, a);
    SampledRule(arb, a.Src(), a.Stamp(), a.now);
    if a.Stamp() > arb.last {
      NothingChargedYet(key, init, arb.last, a.Stamp());
    } else if arb.last > 0 {
      var j :| 0 <= j < k && init[j].Stamp() == arb.last;
      assert FirstWith(init, arb.last) <= j;
    }
    forall b
      ensures b in next.sampled <==> OpenersBit(run, b, next.last) || BitCharged(key, run, b, next.last)
    {
      BitChargedAppend(key, run, b, next.last);
      OpenersBitAppend(init, a, b, next.last);
    }
  }

  /** A source is charged for a frame exactly when the frame belongs to the open stamp, its position
      had gone out already, the source (or one sharing its bit) did not open the stamp, and none of
      these was charged for that stamp before. */
  lemma ChargedExactly(key: SubKey, run: seq<Arrival>, i: nat)
    requires AllBlock(run) && i < |run|
    ensures var (b, h) := (SourceBit(run[i].Src()), run[i].Stamp());
            ChargedAt(key, run, i) <==>
              && Newest(run, i) && (h == 0 || FirstWith(run, h) < i)
              && !ForwardedAt(key, run, i)
              && !OpenersBit(run[..i], b, h)
              && !BitCharged(key, run[..i], b, h)
  {
    var init, a, h := run[..i], run[i], run[i].Stamp();
    SampledState(key, init);
    var arb := After(key, init);
    NewestIff(run, i, arb.last);
    FirstWithPrefix(run, i, h);
    assert a in run;
    SampledRule(arb, a.Src(), h, a.now);
    if h > arb.last {
      NothingChargedYet(key, init, arb.last, h);
    } else if h == arb.last && h > 0 {
      var j :| 0 <= j < i && init[j].Stamp() == h;
      assert FirstWith(init, h) <= j;
    }
  }

  /** However the sources interleave, each is charged at most one delay per stamp, and the one that
      opened the stamp none. */
  lemma OneChargePerStamp(key: SubKey, run: seq<Arrival>, i: nat, j: nat)
    requires AllBlock(run) && i < j < |run|
    requires run[i].Src() == run[j].Src() && run[i].Stamp() == run[j].Stamp()
    ensures !(ChargedAt(key, run, i) && ChargedAt(key, run, j))
    ensures run[i].Stamp() > 0 && FirstWith(run, run[i].Stamp()) == i ==> !ChargedAt(key, run, j)
  {
    ChargedExactly(key, run, j);
    RulingPrefix(key, run, j, i);
    assert run[..j][i] == run[i];
    if ChargedAt(key, run, i) {
      assert ChargedAt(key, run[..j], i);
      assert BitCharged(key, run[..j], SourceBit(run[j].Src()), run[j].Stamp());
    }
    FirstWithPrefix(run, j, run[i].Stamp());
  }

  // ---------- How late ----------

  /** When a stamp was first seen; the entry itself dates from time zero. */
  ghost function FirstSeen(run: seq<Arrival>, h: nat): nat {
    var i := FirstWith(run, h);
    if h == 0 || i == |run| then 0 else run[i].now
  }

  ghost predicate SeenInv(run: seq<Arrival>, arb: Arb) {
    IsNewestStamp(run, arb.last) && arb.needsSnapshot == {} && arb.seenAt == FirstSeen(run, arb.last)
  }

  lemma SeenStep(init: seq<Arrival>, arb: Arb, a: Arrival, h: nat)
    requires SeenInv(init, arb) && h == a.Stamp()
    ensures var r := RuleBlock(arb, a.Src(), h, a.now);
            && SeenInv(init + [a], r.arb)
            && (r.late.Some? ==> h == arb.last && r.late.value == SatSub(a.now, FirstSeen(init, h)))
  {
    hide Bumped;
    NewestAppend(init, arb.last, a);
    FirstWithAppend(init, a, arb.last);
    FirstWithAppend(init, a, h);
    if h > arb.last {
      NothingWith(init, arb.last, h);
    } else if arb.last > 0 {
      var j :| 0 <= j < |init| && init[j].Stamp() == arb.last;
      assert FirstWith(init, arb.last) <= j;
    }
  }

  lemma NothingWith(run: seq<Arrival>, v: nat, h: nat)
    requires IsNewestStamp(run, v) && h > v
    ensures FirstWith(run, h) == |run|
  {
  }

  lemma {:induction false} SeenState(key: SubKey, run: seq<Arrival>)
    requires AllBlock(run)
    ensures SeenInv(run, After(key, run))
  {
    if run != [] {
      var k := |run| - 1;
      SeenState(key, run[..k]);
      assert run[k] in run && run == run[..k] + [run[k]];
      SeenStep(run[..k], After(key, run[..k]), run[k], run[k].Stamp());
    }
  }

  /** The delay charged is how long after the stamp was first seen, by anyone, the frame arrived. */
  lemma DelayIsLateness(key: SubKey, run: seq<Arrival>, i: nat)
    requires AllBlock(run) && i < |run| && ChargedAt(key, run, i)
    ensures RulingAt(key, run, i).late.value == SatSub(run[i].now, FirstSeen(run[..i], run[i].Stamp()))
  {
    assert run[i] in run;
    SeenState(key, run[..i]);
    SeenStep(run[..i], After(key, run[..i]), run[i], run[i].Stamp());
  }

  // ---------- What the counters hold after a run ----------

  function TallyAfter(key: SubKey, run: seq<Arrival>, src: nat): (t: Tally)
    ensures |t.hist| == NUM_BUCKETS
  {
    if run == [] then NEW_TALLY
    else
      var k := |run| - 1;
      var t := TallyAfter(key, run[..k], src);
      if run[k].Src() == src then Charged(t, RulingAt(key, run, k)) else t
  }

  /** How many stamps `src` opened: arrivals of its that were positive and newer than all before. */
  ghost function Opened(run: seq<Arrival>, src: nat): nat {
    if run == [] then 0
    else
      var k := |run| - 1;
      Opened(run[..k], src)
      + if run[k].Src() == src && run[k].Stamp() > 0 && StrictlyNewest(run, k) then 1 else 0
  }

  ghost function Charges(key: SubKey, run: seq<Arrival>, src: nat): nat {
    if run == [] then 0
    else
      var k := |run| - 1;
      Charges(key, run[..k], src) + if run[k].Src() == src && ChargedAt(key, run, k) then 1 else 0
  }

  /** The delays `src` was charged, added up. */
  ghost function Lateness(key: SubKey, run: seq<Arrival>, src: nat): nat {
    if run == [] then 0
    else
      var k := |run| - 1;
      Lateness(key, run[..k], src)
      + if run[k].Src() == src && ChargedAt(key, run, k) then SatSub(run[k].now, FirstSeen(run[..k], run[k].Stamp()))
        else 0
  }

  lemma WinsOpen(key: SubKey, run: seq<Arrival>, i: nat)
    requires AllBlock(run) && i < |run|
    ensures RulingAt(key, run, i).win <==> run[i].Stamp() > 0 && StrictlyNewest(run, i)
  {
    SampledState(key, run[..i]);
    var last := After(key, run[..i]).last;
    assert run[i] in run;
    StrictlyNewestIff(run, i, last);
  }

  lemma StrictlyNewestIff(run: seq<Arrival>, i: nat, v: nat)
    requires i < |run| && IsNewestStamp(run[..i], v)
    ensures run[i].Stamp() > 0 && StrictlyNewest(run, i) <==> run[i].Stamp() > v
  {
    assert forall j :: 0 <= j < i ==> run[..i][j] == run[j];
    if v > 0 {
      var j :| 0 <= j < i && run[..i][j].Stamp() == v;
      assert run[j].Stamp() == v;
    }
  }

  /** After any run of raced frames a source's wins are the stamps it opened, and its duplicates, its
      delay count and its histogram total are all the number of times it was charged; the delays add up
      to how late its charged frames were. */
  lemma {:induction false} CountersAfterARun(key: SubKey, run: seq<Arrival>, src: nat)
    requires AllBlock(run)
    ensures var t := TallyAfter(key, run, src);
            && t.totals.wins == Opened(run, src)
            && t.totals.duplicates == t.totals.delayCount == Sum(t.hist) == Charges(key, run, src)
            && t.totals.delaySumUs == Lateness(key, run, src)
  {
    hide RulingAt, Charged, ChargedAt, FirstSeen, StrictlyNewest;
    if run == [] {
      SumOfZeros(NEW_TALLY.hist);
    } else {
      var k := |run| - 1;
      CountersAfterARun(key, run[..k], src);
      if run[k].Src() == src {
        WinsOpen(key, run, k);
        ChargedIfLate(key, run, k);
        if ChargedAt(key, run, k) {
          DelayIsLateness(key, run, k);
        }
        ChargeAdds(TallyAfter(key, run[..k], src), RulingAt(key, run, k));
      }
    }
  }

  lemma ChargedIfLate(key: SubKey, run: seq<Arrival>, k: nat)
    requires k < |run|
    ensures ChargedAt(key, run, k) <==> RulingAt(key, run, k).late.Some?
  {
  }

  lemma ChargeAdds(t: Tally, r: Ruling)
    requires DelaysAgree(t)
    ensures var (n, late) := (Charged(t, r).totals, r.late);
            && DelaysAgree(Charged(t, r))
            && n.wins == t.totals.wins + (if r.win then 1 else 0)
            && n.delayCount == t.totals.delayCount + (if late.Some? then 1 else 0)
            && n.delaySumUs == t.totals.delaySumUs + (if late.Some? then late.value else 0)
  {
    ChargingKeepsDelaysAgreed(t, r);
    hide Sum;
  }

  lemma {:induction false} SumOfZeros(s: seq<nat>)
    requires forall i :: 0 <= i < |s| ==> s[i] == 0
    ensures Sum(s) == 0
  {
    if s != [] {
      SumOfZeros(s[..|s| - 1]);
    }
  }
}
