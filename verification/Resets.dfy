/** Snapshots on a raced channel: a snapshot that is newer than everything before opens its height just as a
block would, and any other changes nothing. So what is proved of raced blocks holds of streams with snapshots
in them. */
module Resets {
  import opened Wire
  import opened Arbiter
  import opened Modes
  import opened Delays

  ghost predicate AllRaced(run: seq<Arrival>) {
    forall a <- run :: a.msg.ord.Block? || a.msg.ord.Snapshot?
  }

  function AsBlock(a: Arrival): Arrival {
    a.(msg := a.msg.(ord := Block(a.Stamp())))
  }

  function Blocked(out: seq<Arrival>): seq<Arrival> {
    seq(|out|, i requires 0 <= i < |out| => AsBlock(out[i]))
  }

  /** The run with each snapshot that is newer than everything before it as a block, and the others left
      out. */
  ghost function AsBlocks(run: seq<Arrival>): seq<Arrival> {
    if run == [] then []
    else
      var k := |run| - 1;
      if run[k].msg.ord.Block? || (run[k].Stamp() > 0 && StrictlyNewest(run, k))
      then AsBlocks(run[..k]) + [AsBlock(run[k])] else AsBlocks(run[..k])
  }

  /** What one snapshot does. */
  lemma SnapshotOpensOrNothing(key: SubKey, arb: Arb, a: Arrival)
    requires !key.L2Book? && !key.L2Diff? && a.msg.ord.Snapshot? && arb.needsSnapshot == {}
    ensures a.Stamp() > arb.last ==> Rule(key, arb, a) == Rule(key, arb, AsBlock(a))
    ensures a.Stamp() > arb.last ==> Rule(key, arb, a).deliver && Rule(key, arb, a).arb.last == a.Stamp()
    ensures a.Stamp() <= arb.last ==> !Rule(key, arb, a).deliver && Rule(key, arb, a).arb == arb
  {
    hide Bumped;
    assert arb.needsSnapshot - {SourceBit(a.Src())} == arb.needsSnapshot;
  }

  lemma BlockKeepsBits(key: SubKey, arb: Arb, a: Arrival)
    requires a.msg.ord.Block? && arb.needsSnapshot == {}
    ensures Rule(key, arb, a).arb.needsSnapshot == {} && AsBlock(a) == a
    ensures Rule(key, arb, a).arb.last == if a.Stamp() > arb.last then a.Stamp() else arb.last
  {
    hide Bumped;
  }

  lemma OutNext(key: SubKey, run: seq<Arrival>, a: Arrival)
    ensures After(key, run + [a]) == Rule(key, After(key, run), a).arb
    ensures Out(key, run + [a]) == Out(key, run) + if Rule(key, After(key, run), a).deliver then [a] else []
  {
    hide Rule;
    assert (run + [a])[..|run|] == run;
  }

  lemma BlockedNext(out: seq<Arrival>, a: Arrival)
    ensures Blocked(out + [a]) == Blocked(out) + [AsBlock(a)] && Blocked(out + []) == Blocked(out)
  {
    assert out + [] == out;
  }

  /** On a raced channel the entry behaves on any run of blocks and snapshots as on the run with the snapshots
      read as blocks. */
  lemma {:induction false} SnapshotsActAsBlocks(key: SubKey, run: seq<Arrival>)
    requires !key.L2Book? && !key.L2Diff? && AllRaced(run)
    ensures After(key, run) == After(key, AsBlocks(run)) && After(key, run).needsSnapshot == {}
    ensures Out(key, AsBlocks(run)) == Blocked(Out(key, run))
    ensures IsNewestStamp(run, After(key, run).last)
  {
    if run != [] {
      var k := |run| - 1;
      var init, a := run[..k], run[k];
      assert a in run && run == init + [a];
      SnapshotsActAsBlocks(key, init);
      hide Rule, Out, After, Blocked, IsNewestStamp;
      var arb := After(key, init);
      NewestAppend(init, arb.last, a);
      StrictlyNewestIff(run, k, arb.last);
      OutNext(key, init, a);
      OutNext(key, AsBlocks(init), AsBlock(a));
      BlockedNext(Out(key, init), a);
      if a.msg.ord.Block? {
        BlockKeepsBits(key, arb, a);
      } else {
        SnapshotOpensOrNothing(key, arb, a);
        BlockKeepsBits(key, arb, AsBlock(a));
      }
    }
  }

  lemma {:induction false} AsBlocksAreBlocks(run: seq<Arrival>)
    ensures AllBlock(AsBlocks(run))
  {
    if run != [] {
      AsBlocksAreBlocks(run[..|run| - 1]);
    }
  }

  lemma {:induction false} SameHeightsBlocked(out: seq<Arrival>, h: nat)
    ensures OfHeight(Blocked(out), h) == OfHeight(out, h)
  {
    if out != [] {
      var k := |out| - 1;
      SameHeightsBlocked(out[..k], h);
      assert Blocked(out)[..k] == Blocked(out[..k]);
    }
  }

  /** So a raced stream with snapshots in it is one ideal stream too: heights never go back, each height is a
      prefix of its messages, the snapshot that opened it being the first of them, and the open one is as
      long as the longest any source has supplied, exactly as long as no counter wraps. */
  lemma SnapshotsAndBlocksRefineOneStream(key: SubKey, run: seq<Arrival>, messages: nat -> seq<Payload>)
    requires !key.L2Book? && !key.L2Diff? && AllRaced(run) && Scripted(AsBlocks(run), messages)
    ensures var (out, h) := (Out(key, run), After(key, run).last);
            && NeverFalls(out) && OneStream(out, messages) && IsNewestStamp(run, h)
            && (AsLongAsTheFurthest(AsBlocks(run), out, h) <==> NobodyWraps(AsBlocks(run), h))
  {
    SnapshotsActAsBlocks(key, run);
    AsBlocksAreBlocks(run);
    BlockRacingRefinesOneStream(key, AsBlocks(run), messages);
    OutBounded(key, run);
    hide Out, After, AsBlocks, Blocked, IsNewestStamp, NobodyWraps, Count;
    forall h ensures OfHeight(Blocked(Out(key, run)), h) == OfHeight(Out(key, run), h) {
      SameHeightsBlocked(Out(key, run), h);
    }
  }
}
