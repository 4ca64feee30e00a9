/** Who is charged a delay and who is counted stale, under every mode, and what that leaves in the counters. */
module Charges {
  import opened Wire
  import opened Arbiter
  import opened Modes
  import opened Stats
  import opened Delays

  ghost predicate StaleAt(key: SubKey, run: seq<Arrival>, i: nat)
    requires i < |run|
  {
    RulingAt(key, run, i).stale
  }

  // ---------- What the counters hold ----------

  ghost function Stales(key: SubKey, run: seq<Arrival>, src: nat): nat {
    if run == [] then 0
    else
      var k := |run| - 1;
      Stales(key, run[..k], src) + if run[k].Src() == src && StaleAt(key, run, k) then 1 else 0
  }

  ghost function Wins(key: SubKey, run: seq<Arrival>, src: nat): nat {
    if run == [] then 0
    else
      var k := |run| - 1;
      Wins(key, run[..k], src) + if run[k].Src() == src && RulingAt(key, run, k).win then 1 else 0
  }

  lemma ChargeCounts(t: Tally, r: Ruling)
    requires |t.hist| == NUM_BUCKETS
    ensures var n := Charged(t, r).totals;
            && n.packets == t.totals.packets
            && n.wins == t.totals.wins + (if r.win then 1 else 0)
            && n.stale == t.totals.stale + (if r.stale then 1 else 0)
            && n.duplicates == t.totals.duplicates + (if r.late.Some? then 1 else 0)
  {
  }

  /** After any run, whatever its modes, each counter of a source holds how often its frames were ruled
      so. */
  lemma {:induction false} CountersHoldTheRulings(key: SubKey, run: seq<Arrival>, src: nat)
    ensures var n := TallyAfter(key, run, src).totals;
            && n.wins == Wins(key, run, src) && n.stale == Stales(key, run, src)
            && n.duplicates == Charges(key, run, src)
  {
    hide RulingAt, Charged;
    if run != [] {
      var k := |run| - 1;
      CountersHoldTheRulings(key, run[..k], src);
      ChargeCounts(TallyAfter(key, run[..k], src), RulingAt(key, run, k));
    }
  }

  // ---------- How late ----------

  /** When the value in force was last set: by the last frame that opened one, or that the source carrying
      the stream got through. */
  ghost function SetAt(key: SubKey, run: seq<Arrival>): nat {
    if run == [] then 0
    else
      var k := |run| - 1;
      if RulingAt(key, run, k).win || (run[k].msg.ord.Sticky? && ForwardedAt(key, run, k)) then run[k].now
      else SetAt(key, run[..k])
  }

  lemma RuleDates(key: SubKey, arb: Arb, a: Arrival)
    ensures var r := Rule(key, arb, a);
            && r.arb.seenAt == (if r.win || (a.msg.ord.Sticky? && r.deliver) then a.now else arb.seenAt)
            && (r.late.Some? ==> r.late.value == SatSub(a.now, arb.seenAt))
  {
    hide Bumped;
  }

  lemma {:induction false} SeenAtIsSetAt(key: SubKey, run: seq<Arrival>)
    ensures After(key, run).seenAt == SetAt(key, run)
  {
    hide Rule;
    if run != [] {
      SeenAtIsSetAt(key, run[..|run| - 1]);
      RuleDates(key, After(key, run[..|run| - 1]), run[|run| - 1]);
    }
  }

  /** Under every mode the delay charged is the time since the value in force was set. */
  lemma DelayIsTimeSince(key: SubKey, run: seq<Arrival>, i: nat)
    requires i < |run| && ChargedAt(key, run, i)
    ensures RulingAt(key, run, i).late.value == SatSub(run[i].now, SetAt(key, run[..i]))
  {
    SeenAtIsSetAt(key, run[..i]);
    RuleDates(key, After(key, run[..i]), run[i]);
  }

  // ---------- Point, Lead and Block ----------

  /** Under Point a frame that does not go out is late when its stamp is the newest there is, and stale when
      a newer one came before. */
  lemma PointCharges(key: SubKey, run: seq<Arrival>, i: nat)
    requires AllPoint(run) && i < |run|
    ensures ChargedAt(key, run, i) <==> Newest(run, i) && !(run[i].Stamp() > 0 && StrictlyNewest(run, i))
    ensures StaleAt(key, run, i) <==> !Newest(run, i)
    ensures RulingAt(key, run, i).win <==> ForwardedAt(key, run, i)
  {
    PointState(key, run[..i]);
    assert run[i] in run;
    var last := After(key, run[..i]).last;
    NewestIff(run, i, last);
    StrictlyNewestIff(run, i, last);
  }

  /** Under Lead likewise, but the source that first showed the newest stamp is not late with it. */
  lemma LeadCharges(key: SubKey, run: seq<Arrival>, i: nat)
    requires AllLead(run) && i < |run|
    ensures ChargedAt(key, run, i) <==>
              && Newest(run, i)
              && (run[i].Stamp() == 0 || run[i].Src() != run[FirstWith(run, run[i].Stamp())].Src())
    ensures StaleAt(key, run, i) <==> !Newest(run, i)
    ensures RulingAt(key, run, i).win <==> run[i].Stamp() > 0 && StrictlyNewest(run, i)
  {
    LeadState(key, run[..i]);
    LeadForwards(key, run, i);
    assert run[i] in run;
    var last := After(key, run[..i]).last;
    NewestIff(run, i, last);
    StrictlyNewestIff(run, i, last);
    FirstWithPrefix(run, i, run[i].Stamp());
  }

  /** Under Block a frame is stale exactly when a newer one came before; who is charged is said in
      `ChargedExactly`. */
  lemma BlockStales(key: SubKey, run: seq<Arrival>, i: nat)
    requires AllBlock(run) && i < |run|
    ensures StaleAt(key, run, i) <==> !Newest(run, i)
  {
    BlockState(key, run[..i]);
    assert run[i] in run;
    NewestIff(run, i, After(key, run[..i]).last);
    hide Bumped;
  }

  ghost predicate SetInv(run: seq<Arrival>, last: nat, setAt: nat) {
    IsNewestStamp(run, last) && setAt == FirstSeen(run, last)
  }

  lemma SetStep(init: seq<Arrival>, a: Arrival, last: nat, setAt: nat)
    requires SetInv(init, last, setAt)
    ensures if a.Stamp() > last then SetInv(init + [a], a.Stamp(), a.now) else SetInv(init + [a], last, setAt)
  {
    NewestAppend(init, last, a);
    FirstWithAppend(init, a, last);
    FirstWithAppend(init, a, a.Stamp());
    if a.Stamp() > last {
      NothingWith(init, last, a.Stamp());
    } else if last > 0 {
      var j :| 0 <= j < |init| && init[j].Stamp() == last;
      assert FirstWith(init, last) <= j;
    }
  }

  lemma RuleMoves(key: SubKey, arb: Arb, a: Arrival)
    requires a.msg.ord.Point? || a.msg.ord.Lead?
    ensures var r := Rule(key, arb, a);
            && (r.win <==> a.Stamp() > arb.last)
            && r.arb.last == (if a.Stamp() > arb.last then a.Stamp() else arb.last)
  {
  }

  /** The value in force was set when its stamp was first seen. */
  lemma {:induction false} SetWhenFirstSeen(key: SubKey, run: seq<Arrival>)
    requires AllPoint(run) || AllLead(run)
    ensures SetInv(run, After(key, run).last, SetAt(key, run))
  {
    if run != [] {
      var k := |run| - 1;
      var init, a := run[..k], run[k];
      assert a in run && run == init + [a];
      SetWhenFirstSeen(key, init);
      hide SetInv, Rule;
      RuleMoves(key, After(key, init), a);
      SetStep(init, a, After(key, init).last, SetAt(key, init));
    }
  }

  /** So under Point and Lead, as under Block, the delay is how long after its stamp was first seen, by
      anyone, the frame arrived. */
  lemma PointAndLeadLateness(key: SubKey, run: seq<Arrival>, i: nat)
    requires AllPoint(run) || AllLead(run)
    requires i < |run| && ChargedAt(key, run, i)
    ensures RulingAt(key, run, i).late.value == SatSub(run[i].now, FirstSeen(run[..i], run[i].Stamp()))
  {
    DelayIsTimeSince(key, run, i);
    SetWhenFirstSeen(key, run[..i]);
    assert run[i] in run;
    ChargedIsInForce(key, run, i);
  }

  lemma ChargedIsInForce(key: SubKey, run: seq<Arrival>, i: nat)
    requires i < |run| && ChargedAt(key, run, i) && !run[i].msg.ord.Sticky?
    ensures run[i].Stamp() == After(key, run[..i]).last
  {
    hide Bumped;
  }

  // ---------- Sticky ----------

  /** Under Sticky everyone is late but the first source to speak, whose frames are stale when it sent a
      newer one before. */
  lemma StickyCharges(key: SubKey, run: seq<Arrival>, i: nat)
    requires AllSticky(run) && i < |run|
    ensures ChargedAt(key, run, i) <==> run[i].Src() != run[0].Src()
    ensures StaleAt(key, run, i) <==>
              && run[i].Src() == run[0].Src()
              && exists j :: 0 <= j < i && run[j].Src() == run[0].Src() && run[j].Stamp() > run[i].Stamp()
    ensures RulingAt(key, run, i).win <==>
              && run[i].Src() == run[0].Src()
              && forall j :: 0 <= j < i && run[j].Src() == run[0].Src() ==> run[j].Stamp() < run[i].Stamp()
  {
    StickyState(key, run[..i]);
    assert run[i] in run;
    assert forall j :: 0 <= j < i ==> run[..i][j] == run[j];
  }

  // ---------- Snapshot ----------

  ghost predicate AllSnapshot(run: seq<Arrival>) { forall a <- run :: a.msg.ord.Snapshot? }

  /** Position of the first arrival to show a height at all, or the length of the run. */
  ghost function FirstShown(run: seq<Arrival>): (r: nat)
    ensures r <= |run|
    ensures r < |run| ==> run[r].Stamp() > 0
    ensures forall j :: 0 <= j < r ==> run[j].Stamp() == 0
  {
    if run == [] then 0
    else
      var k := |run| - 1;
      var r := FirstShown(run[..k]);
      if r < k then r else if run[k].Stamp() > 0 then k else k + 1
  }

  /** The arrival counts: any does where sources race, and otherwise those of the source that first showed a
      height. */
  ghost predicate Counts(key: SubKey, run: seq<Arrival>, j: nat)
    requires j < |run|
  {
    key.L2Book? || key.L2Diff? ==> j <= FirstShown(run) || run[j].Src() == run[FirstShown(run)].Src()
  }

  lemma FirstShownAppend(init: seq<Arrival>, a: Arrival)
    ensures var p := FirstShown(init);
            FirstShown(init + [a]) == if p < |init| then p else if a.Stamp() > 0 then |init| else |init| + 1
  {
    assert (init + [a])[..|init|] == init;
  }

  lemma CountsAppend(key: SubKey, init: seq<Arrival>, a: Arrival, j: nat)
    requires j <= |init|
    ensures j < |init| ==> (Counts(key, init + [a], j) <==> Counts(key, init, j))
    ensures Counts(key, init + [a], |init|) <==>
              (key.L2Book? || key.L2Diff?) && FirstShown(init) < |init| ==> a.Src() == init[FirstShown(init)].Src()
  {
    FirstShownAppend(init, a);
  }

  lemma {:induction false} CountsPrefix(key: SubKey, run: seq<Arrival>, n: nat, j: nat)
    requires j < n <= |run|
    ensures Counts(key, run[..n], j) <==> Counts(key, run, j)
  {
    hide Counts;
    if n == |run| {
      assert run[..n] == run;
    } else {
      var k := |run| - 1;
      assert run[..k][..n] == run[..n] && run == run[..k] + [run[k]];
      CountsPrefix(key, run[..k], n, j);
      CountsAppend(key, run[..k], run[k], j);
    }
  }

  /** The height is the newest of the snapshots that count, and the source that first showed one leads. */
  ghost predicate SnapshotInv(key: SubKey, run: seq<Arrival>, last: nat, leader: Option<nat>) {
    && (last == 0 <==> FirstShown(run) == |run|)
    && (last == 0 ==> leader == None)
    && (last > 0 && (key.L2Book? || key.L2Diff?) ==> leader == Some(run[FirstShown(run)].Src()))
    && NewestCounting(key, run, last)
  }

  ghost predicate NewestCounting(key: SubKey, run: seq<Arrival>, last: nat) {
    && (forall j :: 0 <= j < |run| && Counts(key, run, j) ==> run[j].Stamp() <= last)
    && (last > 0 ==> exists j :: 0 <= j < |run| && Counts(key, run, j) && run[j].Stamp() == last)
  }

  lemma SnapshotRule(key: SubKey, arb: Arb, a: Arrival)
    requires a.msg.ord.Snapshot?
    ensures var r := Rule(key, arb, a);
            var ours := (key.L2Book? || key.L2Diff?) && arb.leader.Some? ==> arb.leader == Some(a.Src());
            && (r.deliver <==> ours && a.Stamp() > arb.last) && r.win == r.deliver && r.stale == !r.deliver
            && r.late.None?
            && r.arb.last == (if r.deliver then a.Stamp() else arb.last)
            && r.arb.leader == (if r.deliver then Some(a.Src()) else arb.leader)
  {
    hide Bumped;
  }

  lemma NewestCountingStep(key: SubKey, init: seq<Arrival>, a: Arrival, last: nat)
    requires NewestCounting(key, init, last)
    ensures NewestCounting(key, init + [a],
                           if Counts(key, init + [a], |init|) && a.Stamp() > last then a.Stamp() else last)
  {
    var run := init + [a];
    hide Counts;
    forall j | 0 <= j < |init| ensures run[j] == init[j] && (Counts(key, run, j) <==> Counts(key, init, j)) {
      CountsAppend(key, init, a, j);
    }
    if Counts(key, run, |init|) && a.Stamp() > last {
      assert run[|init|] == a;
    } else if last > 0 {
      var j :| 0 <= j < |init| && Counts(key, init, j) && init[j].Stamp() == last;
      assert Counts(key, run, j) && run[j].Stamp() == last;
    }
  }

  lemma OursIff(key: SubKey, init: seq<Arrival>, a: Arrival, last: nat, leader: Option<nat>)
    requires SnapshotInv(key, init, last, leader)
    ensures Counts(key, init + [a], |init|)
       <==> ((key.L2Book? || key.L2Diff?) && leader.Some? ==> leader == Some(a.Src())) || last == 0
    ensures last == 0 ==> leader.None?
  {
    CountsAppend(key, init, a, |init|);
    hide Counts, NewestCounting;
  }

  lemma SnapshotStep(key: SubKey, init: seq<Arrival>, arb: Arb, a: Arrival)
    requires SnapshotInv(key, init, arb.last, arb.leader) && a.msg.ord.Snapshot?
    ensures var next := Rule(key, arb, a).arb; SnapshotInv(key, init + [a], next.last, next.leader)
    ensures Rule(key, arb, a).deliver <==> Counts(key, init + [a], |init|) && a.Stamp() > arb.last
  {
    hide Rule, Counts, NewestCounting;
    SnapshotRule(key, arb, a);
    OursIff(key, init, a, arb.last, arb.leader);
    NewestCountingStep(key, init, a, arb.last);
    FirstShownAppend(init, a);
  }

  lemma {:induction false} SnapshotState(key: SubKey, run: seq<Arrival>)
    requires AllSnapshot(run)
    ensures SnapshotInv(key, run, After(key, run).last, After(key, run).leader)
  {
    if run != [] {
      var k := |run| - 1;
      SnapshotState(key, run[..k]);
      assert run[k] in run && run == run[..k] + [run[k]];
      hide SnapshotInv, Rule;
      SnapshotStep(key, run[..k], After(key, run[..k]), run[k]);
    }
  }

  /** A snapshot goes out when it is higher than all that counted before it: all of them where sources race,
      and where one source carries the stream those of the first to show a height. Any other is stale, and
      none is ever late. */
  lemma SnapshotForwards(key: SubKey, run: seq<Arrival>, i: nat)
    requires AllSnapshot(run) && i < |run|
    ensures ForwardedAt(key, run, i) <==>
              && run[i].Stamp() > 0 && Counts(key, run, i)
              && forall j :: 0 <= j < i && Counts(key, run, j) ==> run[j].Stamp() < run[i].Stamp()
    ensures StaleAt(key, run, i) <==> !ForwardedAt(key, run, i)
    ensures !ChargedAt(key, run, i)
  {
    hide Rule, Counts, After, NewestCounting, FirstShown;
    var init, a := run[..i], run[i];
    assert AllSnapshot(init) && a in run;
    SnapshotState(key, init);
    SnapshotRule(key, After(key, init), a);
    SnapshotStep(key, init, After(key, init), a);
    assert run[..i + 1] == init + [a];
    CountsPrefix(key, run, i + 1, i);
    HigherThanCounting(key, run, i, After(key, init).last);
  }

  lemma HigherThanCounting(key: SubKey, run: seq<Arrival>, i: nat, last: nat)
    requires i < |run| && NewestCounting(key, run[..i], last)
    ensures run[i].Stamp() > last <==>
              && run[i].Stamp() > 0
              && forall j :: 0 <= j < i && Counts(key, run, j) ==> run[j].Stamp() < run[i].Stamp()
  {
    hide Counts;
    forall j | 0 <= j < i ensures run[..i][j] == run[j] && (Counts(key, run[..i], j) <==> Counts(key, run, j)) {
      CountsPrefix(key, run, i, j);
    }
    if last > 0 {
      var j :| 0 <= j < i && Counts(key, run[..i], j) && run[..i][j].Stamp() == last;
      assert run[j].Stamp() == last;
    }
  }
}
