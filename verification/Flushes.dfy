/** A late joiner whose snapshot was taken between two flushes of one block: what it misses, and exactly when
its book comes out right all the same. */
module Flushes {
  import opened Wire
  import opened Books
  import opened Arbiter
  import opened Entries
  import opened Streams
  import opened Epochs
  import opened LateJoin
  import opened DiffStream

  // ---------- Increments on another book ----------

  /** One side of a book with a node's increments `lo + 1` up to `hi` laid on it. */
  function Laid(levels: nat -> seq<Level>, lo: nat, hi: nat, side: SideMap): SideMap
    requires lo <= hi
    decreases hi
  {
    if lo == hi then side
    else ApplySide(Laid(levels, lo, hi - 1, side), DiffSide(levels(hi - 1), levels(hi)))
  }

  /** One of those increments changes the price. */
  ghost predicate Touched(levels: nat -> seq<Level>, lo: nat, hi: nat, px: string) {
    exists n: nat :: lo <= n < hi && !Agree(ByPx(levels(n)), ByPx(levels(n + 1)), px)
  }

  lemma TouchedNext(levels: nat -> seq<Level>, lo: nat, hi: nat, px: string)
    requires lo < hi
    ensures Touched(levels, lo, hi, px)
       <==> Touched(levels, lo, hi - 1, px) || !Agree(ByPx(levels(hi - 1)), ByPx(levels(hi)), px)
  {
    hide Agree, ByPx;
    if Touched(levels, lo, hi, px) {
      var n: nat :| lo <= n < hi && !Agree(ByPx(levels(n)), ByPx(levels(n + 1)), px);
      assert n < hi - 1 || n + 1 == hi;
    }
    if !Agree(ByPx(levels(hi - 1)), ByPx(levels(hi - 1 + 1)), px) {
      assert Touched(levels, lo, hi, px);
    }
  }

  lemma {:induction false} LaidAt(levels: nat -> seq<Level>, lo: nat, hi: nat, side: SideMap, px: string)
    requires lo <= hi
    ensures Agree(Laid(levels, lo, hi, side), ByPx(levels(hi)), px)
       <==> Touched(levels, lo, hi, px) || Agree(side, ByPx(levels(lo)), px)
    decreases hi
  {
    hide ByPx, DiffSide, ApplySide, Touched;
    if lo == hi {
      NothingTouched(levels, lo, px);
    } else {
      LaidAt(levels, lo, hi - 1, side, px);
      TouchedNext(levels, lo, hi, px);
      ForeignDiffAt(levels(hi - 1), levels(hi), Laid(levels, lo, hi - 1, side), px);
    }
  }

  lemma NothingTouched(levels: nat -> seq<Level>, n: nat, px: string)
    ensures !Touched(levels, n, n, px)
  {
  }

  lemma SameEverywhere(a: SideMap, b: SideMap)
    ensures a == b <==> forall px :: Agree(a, b, px)
  {
    if forall px :: Agree(a, b, px) {
      assert a.Keys == b.Keys by {
        forall px ensures px in a <==> px in b { assert Agree(a, b, px); }
      }
      forall px | px in a ensures a[px] == b[px] { assert Agree(a, b, px); }
    }
  }

  /** Laid on another side, the increments arrive at the node's side exactly when the other side agreed
      with the node's at every price they do not touch. */
  lemma LaidLandsIff(levels: nat -> seq<Level>, lo: nat, hi: nat, side: SideMap)
    requires lo <= hi
    ensures Laid(levels, lo, hi, side) == ByPx(levels(hi))
       <==> forall px :: !Touched(levels, lo, hi, px) ==> Agree(side, ByPx(levels(lo)), px)
  {
    hide ByPx, DiffSide, ApplySide, Touched, Agree, Laid;
    SameEverywhere(Laid(levels, lo, hi, side), ByPx(levels(hi)));
    forall px
      ensures Agree(Laid(levels, lo, hi, side), ByPx(levels(hi)), px)
         <==> Touched(levels, lo, hi, px) || Agree(side, ByPx(levels(lo)), px)
    {
      LaidAt(levels, lo, hi, side, px);
    }
  }

  function Bids(node: Node): nat -> seq<Level> { (n: nat) => node.sides(n).bids }
  function Asks(node: Node): nat -> seq<Level> { (n: nat) => node.sides(n).asks }

  /** A book followed by the node's increments `n + 1`, `n + 2`, ... */
  lemma {:induction false} ReplayLays(key: SubKey, node: Node, src: nat, n: nat, s: seq<Msg>, rest: seq<Msg>, b: Book)
    requires s != [] && ClientBook(s) == Some(b)
    requires Frames(key, node, src, n + 1, rest)
    ensures ClientBook(s + rest)
         == Some(Book(Laid(Bids(node), n, n + |rest|, b.bids), Laid(Asks(node), n, n + |rest|, b.asks)))
  {
    hide DiffSide, ApplySide, Route;
    if rest == [] {
      assert s + rest == s;
    } else {
      var k := |rest| - 1;
      assert (s + rest)[..|s| + k] == s + rest[..k];
      ReplayLays(key, node, src, n, s, rest[..k], b);
      assert IsFrame(key, node, src, n + 1 + k, rest[k]);
    }
  }

  // ---------- The rest of a block ----------

  /** The last of the first `n` frames that has the height of frame `at`. */
  function LastOfBlock(node: Node, at: nat, n: nat): (q: nat)
    requires at < n
    ensures at <= q < n && node.height(q) == node.height(at)
  {
    if n - 1 == at || node.height(n - 1) == node.height(at) then n - 1 else LastOfBlock(node, at, n - 1)
  }

  lemma {:induction false} BlockEnds(node: Node, at: nat, n: nat)
    requires Steady(node) && at < n
    ensures var q := LastOfBlock(node, at, n); q + 1 < n ==> node.height(q + 1) > node.height(at)
  {
    if n - 1 != at && node.height(n - 1) != node.height(at) {
      BlockEnds(node, at, n - 1);
      HeightsRise(node, at, n - 1);
    }
  }

  lemma BlockIsNotAbove(key: SubKey, node: Node, src: nat, s: seq<Msg>, q: nat)
    requires Steady(node) && Frames(key, node, src, 0, s) && q < |s|
    ensures NoneAbove(s[..q + 1], node.height(q))
  {
    FramesHead(key, node, src, s, q + 1);
    hide Frames, Steady;
    FramesStamps(key, node, src, 0, s[..q + 1]);
  }

  lemma LaterIsAbove(key: SubKey, node: Node, src: nat, s: seq<Msg>, at: nat, q: nat)
    requires Steady(node) && Frames(key, node, src, 0, s) && q < |s|
    requires q + 1 < |s| ==> node.height(q + 1) > node.height(at)
    ensures AllAbove(s[q + 1..], node.height(at))
  {
    FramesTail(key, node, src, 0, s, q + 1);
    hide Frames, Steady;
    FramesStamps(key, node, src, 0 + (q + 1), s[q + 1..]);
  }

  /** Of a node's frames, those above the height of frame `at` are exactly the ones after the last of its
      block. */
  lemma FramesAboveBlock(key: SubKey, node: Node, src: nat, s: seq<Msg>, at: nat)
    requires Steady(node) && Frames(key, node, src, 0, s) && at < |s|
    ensures Above(s, node.height(at)) == s[LastOfBlock(node, at, |s|) + 1..]
  {
    hide *;
    BlockEnds(node, at, |s|);
    FramesAboveLast(key, node, src, s, at, LastOfBlock(node, at, |s|));
  }

  lemma FramesAboveLast(key: SubKey, node: Node, src: nat, s: seq<Msg>, at: nat, q: nat)
    requires Steady(node) && Frames(key, node, src, 0, s)
    requires q < |s| && node.height(q) == node.height(at)
    requires q + 1 < |s| ==> node.height(q + 1) > node.height(at)
    ensures Above(s, node.height(at)) == s[q + 1..]
  {
    hide *;
    BlockIsNotAbove(key, node, src, s, q);
    LaterIsAbove(key, node, src, s, at, q);
    AboveCut(s, node.height(at), q + 1);
  }

  lemma AboveCut(s: seq<Msg>, height: nat, n: nat)
    requires n <= |s| && NoneAbove(s[..n], height) && AllAbove(s[n..], height)
    ensures Above(s, height) == s[n..]
  {
    hide *;
    assert s == s[..n] + s[n..];
    AboveSplit(s[..n], s[n..], height);
    AboveNone(s[..n], height);
    AboveAll(s[n..], height);
  }

  // ---------- The late joiner, whenever its snapshot was taken ----------

  /** The hypotheses of a story told on a node's frames, the snapshot being its book as of frame `at`. */
  ghost predicate Told(key: SubKey, nodes: nat -> Node, e: Entry, st: Story, first: nat, at: nat) {
    && key.L2Diff? && Plausible(key, e, st, first) && e.arb.leader.None?
    && NobodySteals(key, e, st.Whole()) && FollowedSource(key, e, st)
    && Scripted(key, nodes, st.Whole()) && (forall s :: Steady(nodes(s)))
    && AtJoin(key, e, st).arb.last <= st.Height() < AtAnswer(key, e, st).arb.last
    && IsSnapshotOf(key, nodes(st.snapshot.src), at, st.snapshot)
  }

  lemma ToldMeans(key: SubKey, nodes: nat -> Node, e: Entry, st: Story, first: nat, at: nat)
    requires Told(key, nodes, e, st, first, at)
    ensures Steady(nodes(st.snapshot.src)) && IsSnapshotOf(key, nodes(st.snapshot.src), at, st.snapshot)
  {
    hide Plausible, NobodySteals, FollowedSource, Scripted, Steady, IsSnapshotOf;
  }

  /** What the two clients are sent, in terms of the leader's frames. */
  lemma JoinerMissesItsBlock(key: SubKey, nodes: nat -> Node, e: Entry, st: Story, first: nat, at: nat)
    requires Told(key, nodes, e, st, first, at)
    ensures var (s, node) := (Stream(key, e, st.Whole(), first), nodes(st.snapshot.src));
            && at + 1 < |s| && Frames(key, node, st.snapshot.src, 0, s)
            && JoinerStream(key, e, st) == [st.snapshot] + s[LastOfBlock(node, at, |s|) + 1..]
            && ClientBook(s) == Some(node.BookAt(|s| - 1))
  {
    hide Plausible, NobodySteals, Scripted, FollowedSource, Run, JoinerStream, Stream, Above, Frames;
    hide ClientBook, Steady, AtJoin, AtAnswer, BookFromLevels, DiffSide, IsSnapshotOf, LastOfBlock;
    PlausibleMeans(key, e, st, first);
    AnsweredByLeader(key, nodes(st.snapshot.src), e, st, at);
    SnapshotWasReached(key, nodes, e, st, first, at);
    ClientRebuildsTheLeadersBook(key, nodes, e, st.Whole(), first);
    LateJoinerIsEquivalent(key, e, st, first);
    FramesAboveBlock(key, nodes(st.snapshot.src), st.snapshot.src, Stream(key, e, st.Whole(), first), at);
  }

  lemma TheRestIff(node: Node, s: seq<Msg>, at: nat, snapshot: Msg)
    requires Steady(node) && at + 1 < |s|
    ensures [snapshot] + s[LastOfBlock(node, at, |s|) + 1..] == [snapshot] + s[at + 1..]
       <==> node.height(at) < node.height(at + 1)
  {
    hide LastOfBlock, Steady;
    var q := LastOfBlock(node, at, |s|);
    BlockEnds(node, at, |s|);
    HeightsRise(node, at, at + 1);
    if q > at {
      HeightsRise(node, at + 1, q);
      assert |[snapshot] + s[q + 1..]| < |[snapshot] + s[at + 1..]|;
    }
  }

  /** The joiner is sent every frame after the one its snapshot was taken at exactly when that frame was the
      last flush of its block. */
  lemma LateJoinerIsSentTheRestIff(key: SubKey, nodes: nat -> Node, e: Entry, st: Story, first: nat, at: nat)
    requires Told(key, nodes, e, st, first, at)
    ensures var (s, node) := (Stream(key, e, st.Whole(), first), nodes(st.snapshot.src));
            && at + 1 < |s|
            && (JoinerStream(key, e, st) == [st.snapshot] + s[at + 1..] <==> node.height(at) < node.height(at + 1))
  {
    hide Told, Stream, JoinerStream, Frames, ClientBook, Steady, LastOfBlock;
    JoinerMissesItsBlock(key, nodes, e, st, first, at);
    ToldMeans(key, nodes, e, st, first, at);
    TheRestIff(nodes(st.snapshot.src), Stream(key, e, st.Whole(), first), at, st.snapshot);
  }

  /** Every price on which the books at frames `at` and `q` differ is changed again by frame `last`. */
  ghost predicate MadeGood(levels: nat -> seq<Level>, at: nat, q: nat, last: nat) {
    forall px :: !Touched(levels, q, last, px) ==> Agree(ByPx(levels(at)), ByPx(levels(q)), px)
  }

  lemma RebuiltIff(key: SubKey, node: Node, src: nat, s: seq<Msg>, at: nat, q: nat, snapshot: Msg)
    requires Frames(key, node, src, 0, s) && q < |s| && IsSnapshotOf(key, node, at, snapshot)
    ensures ClientBook([snapshot] + s[q + 1..]) == Some(node.BookAt(|s| - 1))
       <==> MadeGood(Bids(node), at, q, |s| - 1) && MadeGood(Asks(node), at, q, |s| - 1)
  {
    hide Touched, Agree, Laid, ByPx, ClientBook;
    SnapshotStarts([snapshot]);
    FramesTail(key, node, src, 0, s, q + 1);
    hide Frames;
    ReplayLays(key, node, src, q, [snapshot], s[q + 1..], node.BookAt(at));
    LaidLandsIff(Bids(node), q, |s| - 1, ByPx(node.sides(at).bids));
    LaidLandsIff(Asks(node), q, |s| - 1, ByPx(node.sides(at).asks));
  }

  /** The joiner's book comes out the same as the one of the client that was there all along exactly when
      every price that the missed flushes of its block changed has been changed again since. */
  lemma LateJoinerRebuildsIff(key: SubKey, nodes: nat -> Node, e: Entry, st: Story, first: nat, at: nat)
    requires Told(key, nodes, e, st, first, at)
    ensures var (s, node) := (Stream(key, e, st.Whole(), first), nodes(st.snapshot.src));
            && at < |s|
            && (ClientBook(JoinerStream(key, e, st)) == ClientBook(s) <==>
                  var q := LastOfBlock(node, at, |s|);
                  MadeGood(Bids(node), at, q, |s| - 1) && MadeGood(Asks(node), at, q, |s| - 1))
  {
    hide Told, Stream, JoinerStream, LastOfBlock, Frames, ClientBook, IsSnapshotOf, MadeGood;
    JoinerMissesItsBlock(key, nodes, e, st, first, at);
    ToldMeans(key, nodes, e, st, first, at);
    var s, node := Stream(key, e, st.Whole(), first), nodes(st.snapshot.src);
    RebuiltIff(key, node, st.snapshot.src, s, at, LastOfBlock(node, at, |s|), st.snapshot);
  }
}
