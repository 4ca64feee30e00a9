/** Per-source counters: delays and their histogram, the rolling window, and silence. */
module Stats {
  import opened Wire
  import opened Arbiter

  /** Length of a window, and how long a source may stay silent, both in seconds. */
  const WINDOW: nat := 5
  const SILENCE_LIMIT: nat := 5

  /** Upper edges (exclusive, microseconds) of the delay histogram buckets. */
  const BUCKET_EDGES_US: seq<nat> :=
    [500, 1_000, 2_000, 5_000, 10_000, 20_000, 50_000, 100_000, 200_000, 500_000]
  const NUM_BUCKETS: nat := 11

  /** The counters whose last-window deltas are kept. */
  datatype Counters = Counters(
    packets: nat, wins: nat, duplicates: nat, stale: nat, delaySumUs: nat, delayCount: nat)

  const ZERO := Counters(0, 0, 0, 0, 0, 0)

  /** The value of a source's statistics. */
  datatype Tally = Tally(totals: Counters, prev: Counters, delta: Counters, silentWindows: nat, hist: seq<nat>)

  const NEW_TALLY := Tally(ZERO, ZERO, ZERO, 0, [0, 0, 0, 0, 0, 0, 0, 0, 0, 0, 0])

  function SatSub(a: nat, b: nat): nat {
    if a >= b then a - b else 0
  }

  function Minus(a: Counters, b: Counters): Counters {
    Counters(SatSub(a.packets, b.packets), SatSub(a.wins, b.wins), SatSub(a.duplicates, b.duplicates),
             SatSub(a.stale, b.stale), SatSub(a.delaySumUs, b.delaySumUs), SatSub(a.delayCount, b.delayCount))
  }

  function Plus(a: Counters, b: Counters): Counters {
    Counters(a.packets + b.packets, a.wins + b.wins, a.duplicates + b.duplicates,
             a.stale + b.stale, a.delaySumUs + b.delaySumUs, a.delayCount + b.delayCount)
  }

  function Rolled(t: Tally): Tally {
    var delta := Minus(t.totals, t.prev);
    t.(delta := delta, prev := t.totals,
       silentWindows := if delta.packets == 0 then t.silentWindows + 1 else 0)
  }

  /** The first bucket from `i` on whose edge exceeds the delay. */
  function BucketFrom(us: nat, i: nat): (b: nat)
    requires i <= |BUCKET_EDGES_US|
    ensures b < NUM_BUCKETS
    decreases |BUCKET_EDGES_US| - i
  {
    if i == |BUCKET_EDGES_US| then NUM_BUCKETS - 1
    else if us < BUCKET_EDGES_US[i] then i
    else BucketFrom(us, i + 1)
  }

  function Delayed(t: Tally, us: nat): Tally
    requires |t.hist| == NUM_BUCKETS
  {
    var i := BucketFrom(us, 0);
    t.(totals := t.totals.(duplicates := t.totals.duplicates + 1,
                           delaySumUs := t.totals.delaySumUs + us,
                           delayCount := t.totals.delayCount + 1),
       hist := t.hist[i := t.hist[i] + 1])
  }

  /** One more packet from the source. */
  function Heard(t: Tally): Tally {
    t.(totals := t.totals.(packets := t.totals.packets + 1))
  }

  /** What arbitrating one of its frames does to a source's counters. */
  function Charged(t: Tally, r: Ruling): Tally
    requires |t.hist| == NUM_BUCKETS
  {
    var won := if r.win then t.(totals := t.totals.(wins := t.totals.wins + 1)) else t;
    var late := if r.late.Some? then Delayed(won, r.late.value) else won;
    if r.stale then late.(totals := late.totals.(stale := late.totals.stale + 1)) else late
  }

  /** Silence in seconds, or nothing for a source that never delivered. The window count passes
      through 32 bits on its way. */
  function IdleFor(t: Tally): Option<nat> {
    if t.totals.packets == 0 then None else Some(WINDOW * (t.silentWindows % U32))
  }

  class SourceStats {
    var connected: bool
    var totals: Counters
    var prev: Counters
    var delta: Counters
    var silentWindows: nat
    const hist: array<nat>

    ghost predicate Valid()
      reads this
    {
      hist.Length == NUM_BUCKETS
    }

    ghost function View(): Tally
      reads this, hist
    {
      Tally(totals, prev, delta, silentWindows, hist[..])
    }

    constructor ()
      ensures Valid() && fresh(hist)
      ensures View() == NEW_TALLY && !connected
    {
      connected := false;
      totals, prev, delta, silentWindows := ZERO, ZERO, ZERO, 0;
      hist := new nat[NUM_BUCKETS](_ => 0);
      new;
      assert hist[..] == NEW_TALLY.hist;
    }

    method Packet()
      modifies this`totals
      ensures View() == Heard(old(View()))
    {
      totals := totals.(packets := totals.packets + 1);
    }

    method RecordDelay(us: nat)
      requires Valid()
      modifies this`totals, hist
      ensures Valid() && View() == Delayed(old(View()), us)
    {
      totals := totals.(duplicates := totals.duplicates + 1,
                        delaySumUs := totals.delaySumUs + us,
                        delayCount := totals.delayCount + 1);
      var i := 0;
      while i < |BUCKET_EDGES_US| && us >= BUCKET_EDGES_US[i]
        invariant i <= |BUCKET_EDGES_US|
        invariant BucketFrom(us, 0) == BucketFrom(us, i)
      {
        i := i + 1;
      }
      hist[i] := hist[i] + 1;
    }

    method Charge(win: bool, late: Option<nat>, stale: bool, ghost r: Ruling)
      requires Valid() && r.win == win && r.late == late && r.stale == stale
      modifies this`totals, hist
      ensures Valid() && View() == Charged(old(View()), r)
    {
      if win {
        totals := totals.(wins := totals.wins + 1);
      }
      if late.Some? {
        RecordDelay(late.value);
      }
      if stale {
        totals := totals.(stale := totals.stale + 1);
      }
    }

    method Idle() returns (idle: Option<nat>)
      ensures idle == IdleFor(View())
    {
      idle := if totals.packets == 0 then None else Some(WINDOW * (silentWindows % U32));
    }

    method RollWindow()
      modifies this`prev, this`delta, this`silentWindows
      ensures View() == Rolled(old(View()))
    {
      delta := Minus(totals, prev);
      prev := totals;
      if delta.packets == 0 {
        silentWindows := silentWindows + 1;
      } else {
        silentWindows := 0;
      }
    }
  }

  // ---------- The delay histogram ----------

  lemma BucketBrackets(us: nat, i: nat)
    requires i <= |BUCKET_EDGES_US|
    requires i > 0 ==> us >= BUCKET_EDGES_US[i - 1]
    ensures var b := BucketFrom(us, i);
            && (b > 0 ==> us >= BUCKET_EDGES_US[b - 1])
            && (b < NUM_BUCKETS - 1 ==> us < BUCKET_EDGES_US[b])
    decreases |BUCKET_EDGES_US| - i
  {
    if i < |BUCKET_EDGES_US| && us >= BUCKET_EDGES_US[i] {
      BucketBrackets(us, i + 1);
    }
  }

  function Sum(s: seq<nat>): nat {
    if s == [] then 0 else Sum(s[..|s| - 1]) + s[|s| - 1]
  }

  lemma {:induction false} SumUpdate(s: seq<nat>, i: nat)
    requires i < |s|
    ensures Sum(s[i := s[i] + 1]) == Sum(s) + 1
  {
    var k := |s| - 1;
    if i < k {
      assert s[i := s[i] + 1][..k] == s[..k][i := s[i] + 1];
      SumUpdate(s[..k], i);
    } else {
      assert s[i := s[i] + 1][..k] == s[..k];
    }
  }

  /** The three counts of delays a source keeps always agree. */
  ghost predicate DelaysAgree(t: Tally) {
    && |t.hist| == NUM_BUCKETS
    && Sum(t.hist) == t.totals.delayCount == t.totals.duplicates
  }

  /** Arbitration keeps the histogram total, the delay count and the duplicate count in agreement,
      and files each delay under the bucket whose edges bracket it. */
  lemma ChargingKeepsDelaysAgreed(t: Tally, r: Ruling)
    requires DelaysAgree(t)
    ensures DelaysAgree(Charged(t, r))
    ensures r.late.Some? ==>
              var b := BucketFrom(r.late.value, 0);
              var edges := [500, 1_000, 2_000, 5_000, 10_000, 20_000, 50_000, 100_000, 200_000, 500_000];
              && Charged(t, r).hist == t.hist[b := t.hist[b] + 1]
              && (b > 0 ==> r.late.value >= edges[b - 1])
              && (b < 10 ==> r.late.value < edges[b])
  {
    if r.late.Some? {
      BucketBrackets(r.late.value, 0);
      SumUpdate(t.hist, BucketFrom(r.late.value, 0));
    }
  }

  // ---------- Windows ----------

  /** A source's statistics after a run of windows, each of which gained some counts. */
  function Windows(gains: seq<Counters>): Tally {
    if gains == [] then NEW_TALLY
    else
      var t := Windows(gains[..|gains| - 1]);
      Rolled(t.(totals := Plus(t.totals, gains[|gains| - 1])))
  }

  function Total(gains: seq<Counters>): Counters {
    if gains == [] then ZERO else Plus(Total(gains[..|gains| - 1]), gains[|gains| - 1])
  }

  /** The deltas the windows reported, added up. */
  function Reported(gains: seq<Counters>): Counters {
    if gains == [] then ZERO else Plus(Reported(gains[..|gains| - 1]), Windows(gains).delta)
  }

  /** How many windows at the end of the run delivered nothing. */
  function QuietTail(gains: seq<Counters>): (r: nat)
    ensures r <= |gains|
  {
    if gains == [] || gains[|gains| - 1].packets > 0 then 0
    else 1 + QuietTail(gains[..|gains| - 1])
  }

  /** Each window reports exactly what was gained in it, so the reports add up to the totals, and the
      silence counter is the number of windows since the last one that delivered. */
  lemma {:induction false} WindowsAddUp(gains: seq<Counters>)
    ensures Windows(gains).totals == Windows(gains).prev == Total(gains) == Reported(gains)
    ensures Windows(gains).silentWindows == QuietTail(gains)
    ensures gains != [] ==> Windows(gains).delta == gains[|gains| - 1]
  {
    if gains != [] {
      WindowsAddUp(gains[..|gains| - 1]);
    }
  }

  // ---------- A source's life ----------

  /** What happens to a source's statistics: a frame of its comes in, and is ruled on if it is arbitrated;
      or a window ends. */
  datatype Moment = Received(ruling: Option<Ruling>) | WindowEnds

  function Lived(life: seq<Moment>): (t: Tally)
    ensures |t.hist| == NUM_BUCKETS
  {
    if life == [] then NEW_TALLY
    else
      var t := Lived(life[..|life| - 1]);
      match life[|life| - 1]
      case Received(None) => Heard(t)
      case Received(Some(r)) => Charged(Heard(t), r)
      case WindowEnds => Rolled(t)
  }

  /** What one frame adds to each counter. */
  function Added(ruling: Option<Ruling>): Counters {
    match ruling
    case None => Counters(1, 0, 0, 0, 0, 0)
    case Some(r) =>
      Counters(1, if r.win then 1 else 0, if r.late.Some? then 1 else 0, if r.stale then 1 else 0,
               if r.late.Some? then r.late.value else 0, if r.late.Some? then 1 else 0)
  }

  /** What came in since the last window ended. */
  function OpenGain(life: seq<Moment>): Counters {
    if life == [] then ZERO
    else
      match life[|life| - 1]
      case Received(ruling) => Plus(OpenGain(life[..|life| - 1]), Added(ruling))
      case WindowEnds => ZERO
  }

  /** What each window gained that has ended. */
  function WindowGains(life: seq<Moment>): seq<Counters> {
    if life == [] then []
    else
      var before := life[..|life| - 1];
      if life[|life| - 1].WindowEnds? then WindowGains(before) + [OpenGain(before)] else WindowGains(before)
  }

  function Frames(life: seq<Moment>): nat {
    if life == [] then 0 else Frames(life[..|life| - 1]) + if life[|life| - 1].Received? then 1 else 0
  }

  function WindowsEnded(life: seq<Moment>): nat {
    if life == [] then 0 else WindowsEnded(life[..|life| - 1]) + if life[|life| - 1].WindowEnds? then 1 else 0
  }

  /** The counters are those of the windows that ended, and what the open one has gained so far. */
  ghost predicate Accounted(t: Tally, w: Tally, g: Counters) {
    && t.totals == Plus(w.totals, g) && t.prev == w.prev && t.delta == w.delta
    && t.silentWindows == w.silentWindows
  }

  lemma FrameAccounted(t: Tally, w: Tally, g: Counters, ruling: Option<Ruling>)
    requires |t.hist| == NUM_BUCKETS && Accounted(t, w, g)
    ensures Accounted(if ruling.None? then Heard(t) else Charged(Heard(t), ruling.value), w, Plus(g, Added(ruling)))
  {
  }

  lemma WindowAccounted(t: Tally, w: Tally, g: Counters)
    requires Accounted(t, w, g)
    ensures Accounted(Rolled(t), Rolled(w.(totals := Plus(w.totals, g))), ZERO)
  {
  }

  lemma WindowsNext(gains: seq<Counters>, g: Counters)
    ensures var w := Windows(gains); Windows(gains + [g]) == Rolled(w.(totals := Plus(w.totals, g)))
  {
    hide Rolled, Plus;
    assert (gains + [g])[..|gains|] == gains;
  }

  lemma NothingYetAccounted(t: Tally)
    requires t.totals == ZERO
    ensures Accounted(t, t, ZERO)
  {
  }

  lemma NothingAccounted()
    ensures Accounted(NEW_TALLY, Windows([]), ZERO)
  {
    hide Accounted;
    NothingYetAccounted(NEW_TALLY);
  }

  /** A source's counters, over every run of frames received and windows ended. */
  lemma {:induction false} LivesByWindows(life: seq<Moment>)
    ensures Accounted(Lived(life), Windows(WindowGains(life)), OpenGain(life))
    ensures |WindowGains(life)| == WindowsEnded(life)
  {
    hide Accounted, Charged, Heard, Rolled, Plus, Added, Windows;
    if life == [] {
      NothingAccounted();
    } else {
      var before := life[..|life| - 1];
      var t, w, g := Lived(before), Windows(WindowGains(before)), OpenGain(before);
      LivesByWindows(before);
      match life[|life| - 1]
      case Received(ruling) =>
        FrameAccounted(t, w, g, ruling);
      case WindowEnds =>
        WindowAccounted(t, w, g);
        WindowsNext(WindowGains(before), g);
    }
  }

  /** The packets counted are the frames received, whatever became of them and whenever windows ended. */
  lemma {:induction false} PacketsAreFrames(life: seq<Moment>)
    ensures Lived(life).totals.packets == Frames(life)
  {
    if life != [] {
      PacketsAreFrames(life[..|life| - 1]);
    }
  }

  /** A frame came in within the last `n` windows ended, or since. */
  ghost predicate HeardWithin(life: seq<Moment>, n: nat) {
    exists i :: 0 <= i < |life| && life[i].Received? && WindowsEnded(life[i..]) <= n
  }

  lemma {:induction false} EndedSplit(a: seq<Moment>, b: seq<Moment>)
    ensures WindowsEnded(a + b) == WindowsEnded(a) + WindowsEnded(b)
  {
    if b == [] {
      assert a + b == a;
    } else {
      assert (a + b)[..|a + b| - 1] == a + b[..|b| - 1];
      EndedSplit(a, b[..|b| - 1]);
    }
  }

  lemma EndedSince(life: seq<Moment>, i: nat)
    requires life != [] && i < |life|
    ensures var k := |life| - 1;
            WindowsEnded(life[i..])
              == (if i < k then WindowsEnded(life[..k][i..]) else 0) + if life[k].WindowEnds? then 1 else 0
  {
    var k := |life| - 1;
    assert life[i..] == life[..k][i..] + [life[k]];
    EndedSplit(life[..k][i..], [life[k]]);
    assert [life[k]][..0] == [];
  }

  lemma HeardNext(life: seq<Moment>, n: nat)
    requires life != []
    ensures var before := life[..|life| - 1];
            HeardWithin(life, n) <==>
              if life[|life| - 1].Received? then true else n > 0 && HeardWithin(before, n - 1)
  {
    var k := |life| - 1;
    var before := life[..k];
    if life[k].Received? {
      EndedSince(life, k);
    } else {
      if HeardWithin(life, n) {
        var i :| 0 <= i < |life| && life[i].Received? && WindowsEnded(life[i..]) <= n;
        EndedSince(life, i);
        assert before[i].Received?;
      }
      if n > 0 && HeardWithin(before, n - 1) {
        var i :| 0 <= i < |before| && before[i].Received? && WindowsEnded(before[i..]) <= n - 1;
        EndedSince(life, i);
        assert life[i].Received?;
      }
    }
  }

  /** One of the last `n` of these windows gained a packet. */
  ghost predicate GainedWithin(gains: seq<Counters>, n: nat) {
    exists j :: 0 <= j < |gains| && j + n >= |gains| && gains[j].packets > 0
  }

  lemma GainedNext(gains: seq<Counters>, g: Counters, n: nat)
    ensures GainedWithin(gains + [g], n) <==> n > 0 && (g.packets > 0 || GainedWithin(gains, n - 1))
  {
    var all := gains + [g];
    if n > 0 && g.packets > 0 {
      assert all[|gains|].packets > 0;
    }
    if n > 0 && GainedWithin(gains, n - 1) {
      var j :| 0 <= j < |gains| && j + (n - 1) >= |gains| && gains[j].packets > 0;
      assert all[j].packets > 0;
    }
  }

  lemma {:induction false} HeardIsGained(life: seq<Moment>, n: nat)
    ensures HeardWithin(life, n) <==> OpenGain(life).packets > 0 || GainedWithin(WindowGains(life), n)
  {
    if life != [] {
      var before := life[..|life| - 1];
      HeardNext(life, n);
      if life[|life| - 1].WindowEnds? {
        GainedNext(WindowGains(before), OpenGain(before), n);
        if n > 0 {
          HeardIsGained(before, n - 1);
        }
      }
    }
  }

  // ---------- Silence ----------

  datatype Watched = Watched(connected: bool, tally: Tally)

  function RolledAll(sources: seq<Watched>): seq<Watched> {
    seq(|sources|, i requires 0 <= i < |sources| => sources[i].(tally := Rolled(sources[i].tally)))
  }

  /** The least idle time over all sources that ever delivered. */
  function Freshest(sources: seq<Watched>): Option<nat> {
    if sources == [] then None
    else
      var k := |sources| - 1;
      var init := Freshest(sources[..k]);
      var idle := IdleFor(sources[k].tally);
      if idle.None? then init
      else if init.None? || idle.value < init.value then idle
      else init
  }

  function TooIdle(sources: seq<Watched>, limit: nat): seq<nat> {
    if sources == [] then []
    else
      var k := |sources| - 1;
      var w := sources[k];
      var idle := IdleFor(w.tally);
      TooIdle(sources[..k], limit)
      + if w.connected && idle.Some? && idle.value > limit then [k] else []
  }

  /** The sources that have gone quiet while others keep delivering. */
  function SilentSources(sources: seq<Watched>, limit: nat): seq<nat> {
    match Freshest(sources)
    case Some(f) => if f <= limit then TooIdle(sources, limit) else []
    case None => []
  }

  lemma NoneWatched(limit: nat)
    ensures Freshest([]) == None && TooIdle([], limit) == []
  {
  }

  lemma FreshestStep(sources: seq<Watched>, i: nat)
    requires i < |sources|
    ensures sources[..0] == []
    ensures var (init, idle) := (Freshest(sources[..i]), IdleFor(sources[i].tally));
            Freshest(sources[..i + 1]) == if idle.Some? && (init.None? || idle.value < init.value) then idle else init
  {
    assert sources[..i + 1][..i] == sources[..i];
  }

  lemma TooIdleStep(sources: seq<Watched>, i: nat, limit: nat)
    requires i < |sources|
    ensures var idle := IdleFor(sources[i].tally);
            var found := if sources[i].connected && idle.Some? && idle.value > limit then [i] else [];
            TooIdle(sources[..i + 1], limit) == TooIdle(sources[..i], limit) + found
  {
    assert sources[..i + 1][..i] == sources[..i];
  }

  lemma {:induction false} FreshestIsLeast(sources: seq<Watched>, limit: nat)
    ensures (Freshest(sources).Some? && Freshest(sources).value <= limit)
       <==> exists i :: 0 <= i < |sources| && IdleFor(sources[i].tally).Some?
                        && IdleFor(sources[i].tally).value <= limit
  {
    if sources != [] {
      var k := |sources| - 1;
      var init := sources[..k];
      FreshestIsLeast(init, limit);
      if i :| 0 <= i < k && IdleFor(init[i].tally).Some? && IdleFor(init[i].tally).value <= limit {
        assert sources[i] == init[i];
      }
    }
  }

  lemma {:induction false} TooIdleExactly(sources: seq<Watched>, limit: nat, s: nat)
    ensures s in TooIdle(sources, limit) <==>
              && s < |sources| && sources[s].connected
              && IdleFor(sources[s].tally).Some? && IdleFor(sources[s].tally).value > limit
  {
    if sources != [] {
      TooIdleExactly(sources[..|sources| - 1], limit, s);
    }
  }

  /** Whether a source delivered in one of its last two windows. */
  ghost predicate RecentlyHeard(gains: seq<Counters>) {
    exists j :: 0 <= j < |gains| && j + 2 >= |gains| && gains[j].packets > 0
  }

  ghost predicate EverHeard(gains: seq<Counters>) {
    exists j :: 0 <= j < |gains| && gains[j].packets > 0
  }

  lemma {:induction false} HeardIff(gains: seq<Counters>)
    ensures EverHeard(gains) <==> Total(gains).packets > 0
    ensures EverHeard(gains) ==> (RecentlyHeard(gains) <==> QuietTail(gains) <= 1)
  {
    if gains != [] {
      var k := |gains| - 1;
      var init := gains[..k];
      HeardIff(init);
      if EverHeard(init) {
        var j :| 0 <= j < k && init[j].packets > 0;
        assert gains[j].packets > 0;
      }
      if gains[k].packets > 0 {
        assert RecentlyHeard(gains);
      } else if k > 0 && init[k - 1].packets > 0 {
        assert gains[k - 1].packets > 0;
        assert RecentlyHeard(gains);
      } else if k > 0 {
        assert QuietTail(gains) == 2 + QuietTail(init[..k - 1]);
      }
    }
  }

  /** The sources as they stand right after all of them rolled their latest window. */
  ghost predicate JustRolled(sources: seq<Watched>, lives: seq<seq<Moment>>) {
    && |sources| == |lives|
    && forall i :: 0 <= i < |sources| ==>
         && lives[i] != [] && lives[i][|lives[i]| - 1].WindowEnds? && WindowsEnded(lives[i]) < U32
         && sources[i].tally == Lived(lives[i])
  }

  /** A frame of the source has come in, and one came in during its last two windows. */
  ghost predicate EverReceived(life: seq<Moment>) {
    exists i :: 0 <= i < |life| && life[i].Received?
  }

  ghost predicate RecentlyReceived(life: seq<Moment>) {
    HeardWithin(life, 2)
  }

  lemma {:induction false} ReceivedIff(life: seq<Moment>)
    ensures EverReceived(life) <==> Frames(life) > 0
  {
    if life != [] {
      var k := |life| - 1;
      ReceivedIff(life[..k]);
      if life[k].Received? {
        assert EverReceived(life);
      } else {
        assert forall i :: 0 <= i < k ==> life[..k][i] == life[i];
      }
    }
  }

  lemma WithinLimit(quiet: nat)
    requires quiet < U32
    ensures WINDOW * (quiet % U32) == 5 * quiet
    ensures WINDOW * (quiet % U32) <= SILENCE_LIMIT <==> quiet <= 1
  {
    assert quiet % U32 == quiet;
  }

  lemma IdleAfterWindows(gains: seq<Counters>)
    requires |gains| < U32
    ensures var idle := IdleFor(Windows(gains));
            && (idle.Some? <==> EverHeard(gains))
            && (idle.Some? ==> idle.value == 5 * QuietTail(gains))
            && (idle.Some? ==> (idle.value <= SILENCE_LIMIT <==> RecentlyHeard(gains)))
  {
    WindowsAddUp(gains);
    HeardIff(gains);
    WithinLimit(QuietTail(gains));
  }

  lemma IdleAfterLife(life: seq<Moment>)
    requires life != [] && life[|life| - 1].WindowEnds? && WindowsEnded(life) < U32
    ensures var idle := IdleFor(Lived(life));
            && (idle.Some? <==> EverReceived(life))
            && (idle.Some? ==> (idle.value <= SILENCE_LIMIT <==> RecentlyReceived(life)))
  {
    LivesByWindows(life);
    PacketsAreFrames(life);
    ReceivedIff(life);
    HeardIsGained(life, 2);
    IdleAfterWindows(WindowGains(life));
  }

  lemma RecentlyMeansEver(life: seq<Moment>)
    ensures RecentlyReceived(life) ==> EverReceived(life)
  {
  }

  /** A source is reported silent exactly when it is connected, has sent a frame before, sent none in its
      last two windows, and some source did send one in its last two. */
  lemma SilentExactly(sources: seq<Watched>, lives: seq<seq<Moment>>, s: nat)
    requires JustRolled(sources, lives)
    ensures s in SilentSources(sources, SILENCE_LIMIT) <==>
              && s < |sources| && sources[s].connected
              && EverReceived(lives[s]) && !RecentlyReceived(lives[s])
              && exists t :: 0 <= t < |sources| && RecentlyReceived(lives[t])
  {
    hide IdleFor, RecentlyReceived, EverReceived, Freshest, TooIdle, Lived;
    FreshestIsLeast(sources, SILENCE_LIMIT);
    TooIdleExactly(sources, SILENCE_LIMIT, s);
    forall i | 0 <= i < |sources|
      ensures (IdleFor(sources[i].tally).Some? && IdleFor(sources[i].tally).value <= SILENCE_LIMIT)
         <==> RecentlyReceived(lives[i])
    {
      IdleAfterLife(lives[i]);
      RecentlyMeansEver(lives[i]);
    }
    if s < |sources| {
      IdleAfterLife(lives[s]);
    }
  }

  /** A market that silences every source at once is not mistaken for dead sources. */
  lemma QuietMarketFlagsNobody(sources: seq<Watched>, lives: seq<seq<Moment>>)
    requires JustRolled(sources, lives)
    requires forall t :: 0 <= t < |sources| ==> !RecentlyReceived(lives[t])
    ensures SilentSources(sources, SILENCE_LIMIT) == []
  {
    var silent := SilentSources(sources, SILENCE_LIMIT);
    if silent != [] {
      SilentExactly(sources, lives, silent[0]);
    }
  }
}
