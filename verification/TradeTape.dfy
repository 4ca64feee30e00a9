/** The trade tape: batches of trade ids, cut differently by every source, arbitrated newest-wins. */
module TradeTape {
  import opened Wire
  import opened Arbiter
  import opened Modes

  ghost predicate Tape(tape: seq<nat>) {
    && (forall i :: 0 <= i < |tape| ==> tape[i] > 0)
    && (forall i, j :: 0 <= i < j < |tape| ==> tape[i] < tape[j])
  }

  /** A non-empty stretch `tape[lo..hi]`, sent as one batch. */
  datatype Cut = Cut(src: nat, lo: nat, hi: nat, now: nat)

  function Heads(coin: string, tids: seq<nat>): seq<TradeHead> {
    seq(|tids|, i requires 0 <= i < |tids| => TradeHead(coin, tids[i]))
  }

  ghost predicate Cuts(tape: seq<nat>, cuts: seq<Cut>) {
    forall c <- cuts :: c.lo < c.hi <= |tape|
  }

  /** The frame a batch travels as, ordered by whatever routing makes of it. */
  function Batch(coin: string, tape: seq<nat>, c: Cut): Arrival
    requires c.lo < c.hi <= |tape|
  {
    var frame := TradesFrame(Heads(coin, tape[c.lo..c.hi]));
    Arrival(Msg(c.src, Route(frame).value.1, Payload(frame, 0, 0)), c.now)
  }

  function Batches(coin: string, tape: seq<nat>, cuts: seq<Cut>): seq<Arrival>
    requires Cuts(tape, cuts)
  {
    seq(|cuts|, i requires 0 <= i < |cuts| => assert cuts[i] in cuts; Batch(coin, tape, cuts[i]))
  }

  /** How far along the tape the batches so far reach. */
  function Reach(cuts: seq<Cut>): (r: nat)
    ensures forall c <- cuts :: c.hi <= r
    ensures r == 0 || exists c <- cuts :: c.hi == r
  {
    if cuts == [] then 0
    else
      var init, c := Reach(cuts[..|cuts| - 1]), cuts[|cuts| - 1];
      assert cuts == cuts[..|cuts| - 1] + [c];
      if c.hi > init then c.hi else init
  }

  /** The stamp of a batch is the last of its trades. */
  lemma BatchStamp(coin: string, tape: seq<nat>, c: Cut)
    requires Tape(tape) && c.lo < c.hi <= |tape|
    ensures Batch(coin, tape, c).msg.ord == Point(tape[c.hi - 1])
  {
    var heads := Heads(coin, tape[c.lo..c.hi]);
    var i :| 0 <= i < |heads| && heads[i].tid == MaxTid(heads);
    assert heads[|heads| - 1].tid == tape[c.hi - 1];
    assert heads[i].tid == tape[c.lo + i];
  }

  ghost predicate ForwardedCut(coin: string, tape: seq<nat>, cuts: seq<Cut>, i: nat)
    requires Cuts(tape, cuts) && i < |cuts|
  {
    ForwardedAt(Trades(coin), Batches(coin, tape, cuts), i)
  }

  lemma BatchStamps(coin: string, tape: seq<nat>, cuts: seq<Cut>)
    requires Tape(tape) && Cuts(tape, cuts)
    ensures forall j :: 0 <= j < |cuts| ==>
              cuts[j] in cuts && Batches(coin, tape, cuts)[j].msg.ord == Point(tape[cuts[j].hi - 1])
  {
    forall j | 0 <= j < |cuts|
      ensures cuts[j] in cuts && Batches(coin, tape, cuts)[j].msg.ord == Point(tape[cuts[j].hi - 1])
    {
      BatchStamp(coin, tape, cuts[j]);
    }
  }

  ghost predicate Advances(cuts: seq<Cut>, i: nat)
    requires i < |cuts|
  {
    cuts[i].hi > Reach(cuts[..i])
  }

  lemma AdvancesIffNewer(cuts: seq<Cut>, i: nat)
    requires i < |cuts| && cuts[i].hi > 0
    ensures Advances(cuts, i) <==> forall j :: 0 <= j < i ==> cuts[j].hi < cuts[i].hi
  {
    forall j | 0 <= j < i ensures cuts[j].hi <= Reach(cuts[..i]) {
      assert cuts[..i][j] in cuts[..i];
    }
    if !Advances(cuts, i) {
      var c :| c in cuts[..i] && c.hi == Reach(cuts[..i]);
      var j :| 0 <= j < i && cuts[..i][j] == c;
      assert cuts[j] == c;
    }
  }

  /** A batch goes out exactly when it reaches further along the tape than all before it. */
  lemma CutForwards(coin: string, tape: seq<nat>, cuts: seq<Cut>, i: nat)
    requires Tape(tape) && Cuts(tape, cuts) && i < |cuts|
    ensures ForwardedCut(coin, tape, cuts, i) <==> Advances(cuts, i)
  {
    hide ForwardedAt, Reach, Batch;
    var run := Batches(coin, tape, cuts);
    BatchStamps(coin, tape, cuts);
    PointForwards(Trades(coin), run, i);
    AdvancesIffNewer(cuts, i);
    hide Advances, Batches, Tape;
    forall j | 0 <= j < i ensures run[j].Stamp() < run[i].Stamp() <==> cuts[j].hi < cuts[i].hi {
      LaterCutsHaveNewerStamps(coin, tape, cuts, j, i);
    }
  }

  lemma LaterCutsHaveNewerStamps(coin: string, tape: seq<nat>, cuts: seq<Cut>, j: nat, i: nat)
    requires Tape(tape) && Cuts(tape, cuts) && j < i < |cuts|
    ensures var run := Batches(coin, tape, cuts); run[j].Stamp() < run[i].Stamp() <==> cuts[j].hi < cuts[i].hi
  {
    BatchStamps(coin, tape, cuts);
    hide Batches;
    assert cuts[i] in cuts && cuts[j] in cuts;
  }

  /** Batch number `i` went out with trade number `t` of the tape in it. */
  ghost predicate Carried(coin: string, tape: seq<nat>, cuts: seq<Cut>, i: nat, t: nat)
    requires Cuts(tape, cuts) && i < |cuts|
  {
    cuts[i].lo <= t < cuts[i].hi && ForwardedCut(coin, tape, cuts, i)
  }

  /** Whether trade number `t` of the tape has been in a batch that went out. */
  ghost predicate Shown(coin: string, tape: seq<nat>, cuts: seq<Cut>, t: nat)
    requires Cuts(tape, cuts)
  {
    exists i :: 0 <= i < |cuts| && Carried(coin, tape, cuts, i, t)
  }

  ghost predicate NothingMissing(coin: string, tape: seq<nat>, cuts: seq<Cut>)
    requires Cuts(tape, cuts)
  {
    forall t :: 0 <= t < Reach(cuts) ==> Shown(coin, tape, cuts, t)
  }

  /** Every batch that goes out starts at or below what is already covered. */
  ghost predicate NoBatchLeapsAhead(cuts: seq<Cut>) {
    forall i {:trigger Advances(cuts, i)} ::
      0 <= i < |cuts| && Advances(cuts, i) ==> cuts[i].lo <= Reach(cuts[..i])
  }

  lemma LeapFreePrefix(cuts: seq<Cut>, n: nat)
    requires NoBatchLeapsAhead(cuts) && n <= |cuts|
    ensures NoBatchLeapsAhead(cuts[..n])
  {
    forall j | 0 <= j < n && Advances(cuts[..n], j) ensures cuts[..n][j].lo <= Reach(cuts[..n][..j]) {
      assert cuts[..n][..j] == cuts[..j];
      assert Advances(cuts, j);
    }
  }

  lemma {:induction false} LeapFreeCovers(cuts: seq<Cut>, t: nat) returns (i: nat)
    requires NoBatchLeapsAhead(cuts) && t < Reach(cuts)
    ensures i < |cuts| && Advances(cuts, i) && cuts[i].lo <= t < cuts[i].hi
  {
    var k := |cuts| - 1;
    if t < Reach(cuts[..k]) {
      LeapFreePrefix(cuts, k);
      i := LeapFreeCovers(cuts[..k], t);
      assert cuts[..k][..i] == cuts[..i];
    } else {
      i := k;
      assert Reach(cuts) == cuts[k].hi;
      assert Advances(cuts, k);
    }
  }

  lemma LeapFreeMissesNothing(coin: string, tape: seq<nat>, cuts: seq<Cut>)
    requires Tape(tape) && Cuts(tape, cuts) && NoBatchLeapsAhead(cuts)
    ensures NothingMissing(coin, tape, cuts)
  {
    forall t | 0 <= t < Reach(cuts) ensures Shown(coin, tape, cuts, t) {
      var i := LeapFreeCovers(cuts, t);
      CutForwards(coin, tape, cuts, i);
      assert Carried(coin, tape, cuts, i, t);
    }
  }

  lemma NobodyShows(coin: string, tape: seq<nat>, cuts: seq<Cut>, t: nat)
    requires Cuts(tape, cuts) && t < Reach(cuts)
    requires forall j :: 0 <= j < |cuts| ==> !(cuts[j].lo <= t < cuts[j].hi)
    ensures !NothingMissing(coin, tape, cuts)
  {
    hide Reach, ForwardedCut;
    assert !Shown(coin, tape, cuts, t);
  }

  lemma ReachBounds(cuts: seq<Cut>, n: nat, j: nat)
    requires j < n <= |cuts|
    ensures cuts[j].hi <= Reach(cuts[..n])
  {
    assert cuts[..n][j] in cuts[..n];
  }

  lemma LeapLosesATrade(coin: string, tape: seq<nat>, cuts: seq<Cut>, i: nat)
    requires Tape(tape) && Cuts(tape, cuts) && i < |cuts|
    requires cuts[i].lo > Reach(cuts[..i])
    ensures !NeverMissing(coin, tape, cuts)
  {
    hide Reach, NothingMissing;
    var upto, t := cuts[..i + 1], Reach(cuts[..i]);
    ReachBounds(cuts, i + 1, i);
    assert cuts[i] in cuts;
    forall j | 0 <= j < i ensures upto[j].hi <= t {
      ReachBounds(cuts, i, j);
    }
    assert Cuts(tape, upto);
    NobodyShows(coin, tape, upto, t);
  }

  ghost predicate NeverMissing(coin: string, tape: seq<nat>, cuts: seq<Cut>) {
    forall n :: 0 <= n <= |cuts| ==> Cuts(tape, cuts[..n]) && NothingMissing(coin, tape, cuts[..n])
  }

  lemma LeapFreeAlways(coin: string, tape: seq<nat>, cuts: seq<Cut>)
    requires Tape(tape) && Cuts(tape, cuts) && NoBatchLeapsAhead(cuts)
    ensures NeverMissing(coin, tape, cuts)
  {
    forall n | 0 <= n <= |cuts| ensures Cuts(tape, cuts[..n]) && NothingMissing(coin, tape, cuts[..n]) {
      LeapFreePrefix(cuts, n);
      assert Cuts(tape, cuts[..n]);
      hide NoBatchLeapsAhead, NothingMissing;
      LeapFreeMissesNothing(coin, tape, cuts[..n]);
    }
  }

  /** Trades are never lost exactly when no batch leaps ahead: at every moment every trade up to the
      newest has gone out, if and only if each batch that goes out starts at or below what was
      covered before it. */
  lemma TradesCompleteIffNoLeap(coin: string, tape: seq<nat>, cuts: seq<Cut>)
    requires Tape(tape) && Cuts(tape, cuts)
    ensures NoBatchLeapsAhead(cuts) <==> NeverMissing(coin, tape, cuts)
  {
    hide NothingMissing;
    if NoBatchLeapsAhead(cuts) {
      LeapFreeAlways(coin, tape, cuts);
    } else {
      hide Reach;
      var i :| 0 <= i < |cuts| && Advances(cuts, i) && cuts[i].lo > Reach(cuts[..i]);
      LeapLosesATrade(coin, tape, cuts, i);
    }
  }

  /** Where a source stands on the tape: the end of its latest batch. */
  function Cursor(cuts: seq<Cut>, src: nat, start: nat): nat {
    if cuts == [] then start
    else
      var c := cuts[|cuts| - 1];
      if c.src == src then c.hi else Cursor(cuts[..|cuts| - 1], src, start)
  }

  /** Every source cuts the tape into consecutive batches from some position on, and the first batch
      of each starts at or below what is covered when it arrives. */
  ghost predicate Consecutive(cuts: seq<Cut>, start: nat -> nat) {
    forall i :: 0 <= i < |cuts| ==>
      && cuts[i].lo == Cursor(cuts[..i], cuts[i].src, start(cuts[i].src))
      && ((forall j :: 0 <= j < i ==> cuts[j].src != cuts[i].src) ==> cuts[i].lo <= Reach(cuts[..i]))
  }

  lemma {:induction false} CursorWithinReach(cuts: seq<Cut>, src: nat, start: nat)
    ensures (forall c <- cuts :: c.src != src) || Cursor(cuts, src, start) <= Reach(cuts)
  {
    if cuts != [] {
      var k := |cuts| - 1;
      CursorWithinReach(cuts[..k], src, start);
      assert cuts == cuts[..k] + [cuts[k]];
    }
  }

  lemma ConsecutiveNeverLeaps(cuts: seq<Cut>, start: nat -> nat, i: nat)
    requires Consecutive(cuts, start) && i < |cuts|
    ensures cuts[i].lo <= Reach(cuts[..i])
  {
    var s := cuts[i].src;
    CursorWithinReach(cuts[..i], s, start(s));
    if forall c <- cuts[..i] :: c.src != s {
      forall j | 0 <= j < i ensures cuts[j].src != s {
        assert cuts[..i][j] in cuts[..i];
      }
    }
  }

  /** However the sources cut the tape and however their batches interleave, every trade up to the
      newest has gone out, and the newest id of each batch that goes out exceeds all before it. */
  lemma TradesAreNeverLost(coin: string, tape: seq<nat>, cuts: seq<Cut>, start: nat -> nat)
    requires Tape(tape) && Cuts(tape, cuts) && Consecutive(cuts, start)
    ensures NothingMissing(coin, tape, cuts)
    ensures forall i, j :: 0 <= i < j < |cuts|
              && ForwardedCut(coin, tape, cuts, i) && ForwardedCut(coin, tape, cuts, j)
              ==> cuts[i] in cuts && cuts[j] in cuts && tape[cuts[i].hi - 1] < tape[cuts[j].hi - 1]
  {
    forall i | 0 <= i < |cuts| ensures cuts[i].lo <= Reach(cuts[..i]) {
      ConsecutiveNeverLeaps(cuts, start, i);
    }
    LeapFreeMissesNothing(coin, tape, cuts);
    forall i, j | 0 <= i < j < |cuts|
                  && ForwardedCut(coin, tape, cuts, i) && ForwardedCut(coin, tape, cuts, j)
      ensures cuts[i] in cuts && cuts[j] in cuts && tape[cuts[i].hi - 1] < tape[cuts[j].hi - 1]
    {
      CutForwards(coin, tape, cuts, j);
      assert cuts[..j][i] in cuts[..j];
    }
  }

  // ---------- Repeats ----------

  /** No trade has been in two batches that went out. */
  ghost predicate NoTradeRepeats(coin: string, tape: seq<nat>, cuts: seq<Cut>)
    requires Cuts(tape, cuts)
  {
    forall i, j, t :: 0 <= i < j < |cuts| && Carried(coin, tape, cuts, i, t) ==> !Carried(coin, tape, cuts, j, t)
  }

  /** Every batch that goes out starts at or above what is already covered. */
  ghost predicate NoBatchReachesBack(cuts: seq<Cut>) {
    forall i {:trigger Advances(cuts, i)} ::
      0 <= i < |cuts| && Advances(cuts, i) ==> cuts[i].lo >= Reach(cuts[..i])
  }

  /** Some batch that goes out ends where the tape is covered to. */
  lemma {:induction false} ReachIsShown(cuts: seq<Cut>) returns (i: nat)
    requires Reach(cuts) > 0
    ensures i < |cuts| && Advances(cuts, i) && cuts[i].hi == Reach(cuts)
  {
    var k := |cuts| - 1;
    if cuts[k].hi > Reach(cuts[..k]) {
      i := k;
    } else {
      i := ReachIsShown(cuts[..k]);
      assert cuts[..k][..i] == cuts[..i];
    }
  }

  lemma ReachingBackRepeats(coin: string, tape: seq<nat>, cuts: seq<Cut>, j: nat)
    requires Tape(tape) && Cuts(tape, cuts) && j < |cuts|
    requires Advances(cuts, j) && cuts[j].lo < Reach(cuts[..j])
    ensures !NoTradeRepeats(coin, tape, cuts)
  {
    hide Tape, Reach, ForwardedCut;
    var i := ReachIsShown(cuts[..j]);
    assert cuts[..j][..i] == cuts[..i] && cuts[..j][i] == cuts[i];
    CutForwards(coin, tape, cuts, i);
    CutForwards(coin, tape, cuts, j);
    assert cuts[i] in cuts;
    assert Carried(coin, tape, cuts, i, cuts[i].hi - 1);
    assert Carried(coin, tape, cuts, j, cuts[i].hi - 1);
  }

  /** A trade goes out twice exactly when some batch that goes out starts below what was covered before
      it, which can be read off each batch as it arrives. */
  lemma TradesRepeatIffReachingBack(coin: string, tape: seq<nat>, cuts: seq<Cut>)
    requires Tape(tape) && Cuts(tape, cuts)
    ensures NoTradeRepeats(coin, tape, cuts) <==> NoBatchReachesBack(cuts)
  {
    hide Reach, ForwardedCut, Cuts, Tape;
    if NoBatchReachesBack(cuts) {
      forall i, j, t | 0 <= i < j < |cuts| && Carried(coin, tape, cuts, i, t)
        ensures !Carried(coin, tape, cuts, j, t)
      {
        CutForwards(coin, tape, cuts, j);
        ReachBounds(cuts, j, i);
        assert Advances(cuts, j) ==> cuts[j].lo >= Reach(cuts[..j]);
      }
    } else {
      var j :| 0 <= j < |cuts| && Advances(cuts, j) && cuts[j].lo < Reach(cuts[..j]);
      ReachingBackRepeats(coin, tape, cuts, j);
    }
  }

  /** Every trade goes out exactly once, at every moment, exactly when each batch that goes out starts
      where the tape was covered to. */
  lemma TradesOnceIffAligned(coin: string, tape: seq<nat>, cuts: seq<Cut>)
    requires Tape(tape) && Cuts(tape, cuts)
    ensures NeverMissing(coin, tape, cuts) && NoTradeRepeats(coin, tape, cuts)
       <==> forall i {:trigger Advances(cuts, i)} ::
              0 <= i < |cuts| && Advances(cuts, i) ==> cuts[i].lo == Reach(cuts[..i])
  {
    hide Reach, NeverMissing, NoTradeRepeats, Advances, Tape, Cuts;
    TradesCompleteIffNoLeap(coin, tape, cuts);
    TradesRepeatIffReachingBack(coin, tape, cuts);
  }

  lemma RepeatScript(cuts: seq<Cut>)
    requires cuts == [Cut(0, 0, 2, 0), Cut(1, 0, 1, 0), Cut(1, 1, 3, 0)]
    ensures Advances(cuts, 0) && Advances(cuts, 2)
    ensures Consecutive(cuts, s => 0)
  {
    assert cuts[..0] == [];
    assert cuts[..1] == [Cut(0, 0, 2, 0)] && Reach(cuts[..1]) == 2;
    assert cuts[..2][..1] == cuts[..1] && Reach(cuts[..2]) == 2;
    assert Cursor(cuts[..2], 1, 0) == 1;
    assert cuts[..1][..0] == [] && Cursor(cuts[..1], 1, 0) == 0;
  }

  /** Nothing is lost, but a trade can go out twice: two sources that cut the tape at different
      places both get their batch through. */
  lemma OverlappingCutsRepeatATrade(coin: string)
    ensures var tape, cuts := [1, 2, 3], [Cut(0, 0, 2, 0), Cut(1, 0, 1, 0), Cut(1, 1, 3, 0)];
            && Tape(tape) && Cuts(tape, cuts) && Consecutive(cuts, s => 0)
            && ForwardedCut(coin, tape, cuts, 0) && ForwardedCut(coin, tape, cuts, 2)
            && cuts[0].lo <= 1 < cuts[0].hi && cuts[2].lo <= 1 < cuts[2].hi
  {
    var tape, cuts := [1, 2, 3], [Cut(0, 0, 2, 0), Cut(1, 0, 1, 0), Cut(1, 1, 3, 0)];
    RepeatScript(cuts);
    CutForwards(coin, tape, cuts, 0);
    CutForwards(coin, tape, cuts, 2);
  }
}
