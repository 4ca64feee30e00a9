/** Heights and leaders along a run: what holds between two losses of the leader. */
module Epochs {
  import opened Wire
  import opened Arbiter
  import opened Entries
  import opened Streams

  /** The step lets go of the leadership and its height: the leading source is lost. */
  predicate Frees(key: SubKey, e: Entry, ev: KeyEvent) {
    ev.Lost? && LedBy(e, ev.source) && (key.IsIncremental() || key.SingleSourced())
  }

  /** The step drops the entry: the last client leaves. */
  predicate Drops(e: Entry, ev: KeyEvent) {
    ev.Leave? && LeaveDrops(e, ev.client)
  }

  /** The step moves the leadership to a source that did not have it: a waiting client is answered by
      another source than the one being followed. */
  predicate Steals(key: SubKey, e: Entry, ev: KeyEvent) {
    ev.Answer? && key.SingleSourced() && IsParked(e.pending, ev.client)
    && e.arb.leader.Some? && e.arb.leader != Some(ev.snapshot.src)
  }

  /** No step of the run loses the leader or drops the entry. */
  ghost predicate OneEpoch(key: SubKey, e: Entry, evs: seq<KeyEvent>) {
    forall i :: 0 <= i < |evs| ==>
      && !Frees(key, Run(key, e, evs[..i]), evs[i])
      && !Drops(Run(key, e, evs[..i]), evs[i])
  }

  ghost predicate NobodySteals(key: SubKey, e: Entry, evs: seq<KeyEvent>) {
    forall i :: 0 <= i < |evs| ==> !Steals(key, Run(key, e, evs[..i]), evs[i])
  }

  lemma EpochPrefix(key: SubKey, e: Entry, evs: seq<KeyEvent>, n: nat)
    requires n <= |evs|
    ensures OneEpoch(key, e, evs) ==> OneEpoch(key, e, evs[..n])
    ensures NobodySteals(key, e, evs) ==> NobodySteals(key, e, evs[..n])
  {
    hide Run, Frees, Drops, Steals;
    forall i | 0 <= i < n ensures evs[..n][..i] == evs[..i] && evs[..n][i] == evs[i] {
    }
  }

  lemma EpochSplit(key: SubKey, e: Entry, a: seq<KeyEvent>, b: seq<KeyEvent>)
    ensures OneEpoch(key, e, a + b) ==> OneEpoch(key, e, a) && OneEpoch(key, Run(key, e, a), b)
    ensures NobodySteals(key, e, a + b) ==> NobodySteals(key, e, a) && NobodySteals(key, Run(key, e, a), b)
  {
    hide Run, Frees, Drops, Steals;
    EpochPrefix(key, e, a + b, |a|);
    assert (a + b)[..|a|] == a;
    forall i | 0 <= i < |b|
      ensures Run(key, e, (a + b)[..|a| + i]) == Run(key, Run(key, e, a), b[..i])
      ensures (a + b)[|a| + i] == b[i]
    {
      assert (a + b)[..|a| + i] == a + b[..i];
      RunSplit(key, e, a, b[..i]);
    }
  }

  // ---------- Heights ----------

  ghost predicate Ascending(s: seq<Msg>) {
    forall i, j :: 0 <= i < j < |s| ==> s[i].ord.stamp <= s[j].ord.stamp
  }

  ghost predicate Within(s: seq<Msg>, lo: nat, hi: nat) {
    forall i :: 0 <= i < |s| ==> lo <= s[i].ord.stamp <= hi
  }

  lemma ArriveHeights(key: SubKey, e: Entry, m: Msg, now: nat)
    requires WellFormed(key, e) && Routable(key, m.ord)
    ensures UpdateEntry(key, e, m, now).arb.last >= e.arb.last
    ensures Ruled(key, e, m, now).deliver ==> m.ord.stamp == UpdateEntry(key, e, m, now).arb.last
  {
    hide NoRepeats, AllBounded, Kept, HeldFor, Bumped;
  }

  lemma StepHeights(key: SubKey, e: Entry, ev: KeyEvent)
    requires WellFormed(key, e) && Legal(key, e, ev)
    requires !Frees(key, e, ev) && !Drops(e, ev)
    ensures KeyStep(key, e, ev).arb.last >= e.arb.last
    ensures Forwards(key, e, ev) != [] ==> Forwards(key, e, ev)[0].ord.stamp == KeyStep(key, e, ev).arb.last
  {
    hide UpdateEntry, WellFormed, Listed;
    if ev.Arrive? {
      ArriveHeights(key, e, ev.msg, ev.now);
    }
  }

  /** Until the leader is lost, the height of an entry never falls, and the frames it forwards never
      step back. */
  lemma {:induction false} HeightsAscend(key: SubKey, e: Entry, evs: seq<KeyEvent>)
    requires WellFormed(key, e) && LegalRun(key, e, evs) && OneEpoch(key, e, evs)
    ensures Run(key, e, evs).arb.last >= e.arb.last
    ensures Ascending(Forwarded(key, e, evs))
    ensures Within(Forwarded(key, e, evs), e.arb.last, Run(key, e, evs).arb.last)
  {
    hide KeyStep, Forwards, WellFormed, Legal, Frees, Drops;
    if evs != [] {
      var k := |evs| - 1;
      LegalPrefix(key, e, evs, k);
      EpochPrefix(key, e, evs, k);
      HeightsAscend(key, e, evs[..k]);
      RunKeepsWellFormed(key, e, evs[..k]);
      var before, after := Run(key, e, evs[..k]), Run(key, e, evs);
      StepHeights(key, before, evs[k]);
      AtMostOne(key, before, evs[k]);
      hide Run, LegalRun, OneEpoch;
      AscendingAppend(Forwarded(key, e, evs[..k]), Forwards(key, before, evs[k]),
                      e.arb.last, before.arb.last, after.arb.last);
    }
  }

  lemma AscendingAppend(s: seq<Msg>, t: seq<Msg>, lo: nat, mid: nat, hi: nat)
    requires Ascending(s) && Within(s, lo, mid) && lo <= mid <= hi
    requires |t| <= 1 && (t != [] ==> t[0].ord.stamp == hi)
    ensures Ascending(s + t) && Within(s + t, lo, hi)
  {
  }

  lemma AtMostOne(key: SubKey, e: Entry, ev: KeyEvent)
    ensures |Forwards(key, e, ev)| <= 1
  {
    hide Ruled;
  }

  // ---------- Leaders ----------

  lemma ArriveLeader(key: SubKey, e: Entry, m: Msg, now: nat)
    requires Routable(key, m.ord) && key.SingleSourced()
    ensures var n := UpdateEntry(key, e, m, now).arb.leader;
            && (e.arb.leader.Some? ==> n == e.arb.leader)
            && (Ruled(key, e, m, now).deliver ==> n == Some(m.src))
            && (n.Some? && e.arb.leader.None? ==> Ruled(key, e, m, now).deliver)
  {
    hide Kept, HeldFor, Bumped;
  }

  /** On a single-sourced channel leadership leaves a source exactly in three ways: the source is
      lost, the last client leaves, or a waiting client is answered by somebody else. */
  lemma LeadershipLeavesIff(key: SubKey, e: Entry, ev: KeyEvent, leader: nat)
    requires key.SingleSourced() && Legal(key, e, ev) && LedBy(e, leader)
    ensures KeyStep(key, e, ev).arb.leader != Some(leader)
       <==> Frees(key, e, ev) || Drops(e, ev) || Steals(key, e, ev)
  {
    hide UpdateEntry, Listed, LeaveDrops, Without, WithoutPending;
    match ev
    case Arrive(m, now) => ArriveLeader(key, e, m, now);
    case _ =>
  }

  ghost predicate AllFrom(s: seq<Msg>, leader: Option<nat>) {
    forall i :: 0 <= i < |s| ==> leader == Some(s[i].src)
  }

  lemma StepLeader(key: SubKey, e: Entry, ev: KeyEvent)
    requires key.SingleSourced() && Legal(key, e, ev)
    requires !Frees(key, e, ev) && !Drops(e, ev) && !Steals(key, e, ev)
    ensures e.arb.leader.Some? ==> KeyStep(key, e, ev).arb.leader == e.arb.leader
    ensures AllFrom(Forwards(key, e, ev), KeyStep(key, e, ev).arb.leader)
  {
    if e.arb.leader.Some? {
      LeadershipLeavesIff(key, e, ev, e.arb.leader.value);
    }
    hide KeyStep, Ruled;
    if ev.Arrive? {
      ArriveForwardsLeader(key, e, ev.msg, ev.now);
    }
  }

  lemma ArriveForwardsLeader(key: SubKey, e: Entry, m: Msg, now: nat)
    requires key.SingleSourced() && Routable(key, m.ord)
    ensures AllFrom(Forwards(key, e, Arrive(m, now)), KeyStep(key, e, Arrive(m, now)).arb.leader)
  {
    hide UpdateEntry, Ruled;
    ArriveLeader(key, e, m, now);
  }

  /** Within an epoch nobody steals, everything forwarded comes from the source leading at its end. */
  lemma {:induction false} EpochHasOneSource(key: SubKey, e: Entry, evs: seq<KeyEvent>)
    requires key.SingleSourced() && LegalRun(key, e, evs)
    requires OneEpoch(key, e, evs) && NobodySteals(key, e, evs)
    ensures e.arb.leader.Some? ==> Run(key, e, evs).arb.leader == e.arb.leader
    ensures AllFrom(Forwarded(key, e, evs), Run(key, e, evs).arb.leader)
  {
    hide KeyStep, Forwards, Legal, Frees, Drops, Steals;
    if evs != [] {
      var k := |evs| - 1;
      LegalPrefix(key, e, evs, k);
      EpochPrefix(key, e, evs, k);
      EpochHasOneSource(key, e, evs[..k]);
      StepLeader(key, Run(key, e, evs[..k]), evs[k]);
      assert Run(key, e, evs) == KeyStep(key, Run(key, e, evs[..k]), evs[k]);
    }
  }

  // ---------- What an attached client sees ----------

  /** The leader of a channel with a leader is not lost along the run. */
  ghost predicate LeaderStays(key: SubKey, e: Entry, evs: seq<KeyEvent>) {
    forall i :: 0 <= i < |evs| ==> !Frees(key, Run(key, e, evs[..i]), evs[i])
  }

  lemma {:induction false} AttachedKeepsEpoch(key: SubKey, e: Entry, evs: seq<KeyEvent>, c: nat)
    requires WellFormed(key, e) && LegalRun(key, e, evs) && c in e.subscribers
    requires LeaderStays(key, e, evs) && Leave(c) !in evs
    ensures OneEpoch(key, e, evs) && Undisturbed(key, e, evs, c)
  {
    hide KeyStep, WellFormed, Legal, LeaveDrops, Listed;
    forall i | 0 <= i < |evs|
      ensures !Parks(key, Run(key, e, evs[..i]), evs[i])
      ensures evs[i] != Leave(c)
    {
      assert evs[i] in evs && !Frees(key, Run(key, e, evs[..i]), evs[i]);
    }
    forall i | 0 <= i < |evs| ensures !Drops(Run(key, e, evs[..i]), evs[i]) {
      LegalPrefix(key, e, evs, i);
      UndisturbedPrefix(key, e, evs, i, c);
      AttachedHearsEverything(key, e, evs[..i], c);
      AttachedIsNotDropped(Run(key, e, evs[..i]), evs[i], c);
    }
  }

  lemma AttachedIsNotDropped(e: Entry, ev: KeyEvent, c: nat)
    requires c in e.subscribers && ev != Leave(c)
    ensures !Drops(e, ev)
  {
    if ev.Leave? {
      WithoutExactly(e.subscribers, ev.client);
      assert c in multiset(Without(e.subscribers, ev.client));
    }
  }

  /** Between two losses of the leader, an attached client of a single-sourced channel sees one
      source's frames, none stepping back. On `l2Book` that needs nothing else; on `l2Diff` it needs
      waiting clients to be answered by the source being followed. */
  lemma StickyEpochHasOneSource(key: SubKey, e: Entry, evs: seq<KeyEvent>, c: nat)
    requires WellFormed(key, e) && LegalRun(key, e, evs)
    requires key.SingleSourced() && c in e.subscribers
    requires LeaderStays(key, e, evs) && Leave(c) !in evs
    requires key.L2Diff? ==> NobodySteals(key, e, evs)
    ensures c in Run(key, e, evs).subscribers
    ensures Ascending(Stream(key, e, evs, c))
    ensures AllFrom(Stream(key, e, evs, c), Run(key, e, evs).arb.leader)
    ensures e.arb.leader.Some? ==> Run(key, e, evs).arb.leader == e.arb.leader
  {
    hide Run, Forwarded, Stream;
    AttachedKeepsEpoch(key, e, evs, c);
    AttachedHearsEverything(key, e, evs, c);
    HeightsAscend(key, e, evs);
    if key.L2Book? {
      forall i | 0 <= i < |evs| ensures !Steals(key, Run(key, e, evs[..i]), evs[i]) {
        LegalPrefix(key, e, evs, i);
        RunKeepsWellFormed(key, e, evs[..i]);
      }
    }
    EpochHasOneSource(key, e, evs);
  }

  /** The guard on answers is needed. Whenever a waiting client of an `l2Diff` channel is answered by
      another source than the one being followed, every client already attached is moved across:
      that source's next increment goes out to it, on top of the other source's book. */
  lemma AnswerFromAnotherSourceSplices(
      key: SubKey, e: Entry, attached: nat, waiting: nat, snapshot: Msg, m: Msg, now: nat)
    requires WellFormed(key, e) && key.L2Diff?
    requires attached in e.subscribers && IsParked(e.pending, waiting)
    requires e.arb.leader.Some? && e.arb.leader != Some(snapshot.src)
    requires m.src == snapshot.src && m.ord.Sticky? && m.ord.stamp >= e.arb.last
    ensures var n := KeyStep(key, e, Answer(waiting, snapshot));
            && LedBy(n, snapshot.src)
            && Offers(key, n, Arrive(m, now), attached) == [m]
    ensures Offers(key, e, Arrive(m, now), attached) == []
  {
  }

  lemma OpensAlone(key: SubKey, p: Payload)
    requires key.L2Diff?
    ensures KeyStep(key, EMPTY, Join(1)) == Entry(FRESH, true, false, [1], [])
    ensures var e := KeyStep(key, Entry(FRESH, true, false, [1], []), Arrive(Msg(0, Snapshot(10), p), 0));
            e.subscribers == [1] && e.pending == [] && e.upstream && LedBy(e, 0) && Listed(e) == [1]
  {
  }

  lemma RunOfThree(key: SubKey, e: Entry, a: KeyEvent, b: KeyEvent, c: KeyEvent)
    ensures var (e1, e2) := (KeyStep(key, e, a), KeyStep(key, KeyStep(key, e, a), b));
            && Run(key, e, [a, b, c]) == KeyStep(key, e2, c)
            && (Legal(key, e, a) && Legal(key, e1, b) && Legal(key, e2, c) ==> LegalRun(key, e, [a, b, c]))
  {
    hide KeyStep, Legal;
    var evs := [a, b, c];
    assert evs[..0] == [] && evs[..1] == [a] && evs[..2] == [a, b] && evs[..3] == evs;
    assert [a][..0] == [] && [a, b][..1] == [a];
    assert Run(key, e, [a]) == KeyStep(key, e, a);
    assert Run(key, e, [a, b]) == KeyStep(key, KeyStep(key, e, a), b);
  }

  /** Such an entry is reached in three steps: a client joins, source 0 opens the stream, and a second
      client joins late. */
  lemma SplicingIsReachable(coin: string, p: Payload)
    ensures var key := L2Diff(coin, None, None, None);
            var evs := [Join(1), Arrive(Msg(0, Snapshot(10), p), 0), Join(2)];
            var e := Run(key, EMPTY, evs);
            && LegalRun(key, EMPTY, evs) && WellFormed(key, e)
            && 1 in e.subscribers && IsParked(e.pending, 2) && LedBy(e, 0)
  {
    var key := L2Diff(coin, None, None, None);
    var a, b, c := Join(1), Arrive(Msg(0, Snapshot(10), p), 0), Join(2);
    OpensAlone(key, p);
    RunOfThree(key, EMPTY, a, b, c);
    assert Listed(EMPTY) == [];
    hide Run, LegalRun, UpdateEntry;
    var e2 := KeyStep(key, KeyStep(key, EMPTY, a), b);
    assert Legal(key, EMPTY, a) && Legal(key, e2, c);
    RunKeepsWellFormed(key, EMPTY, [a, b, c]);
    assert KeyStep(key, e2, c).pending == [Pending(2, [], 0)];
  }
}
