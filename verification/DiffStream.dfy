/** `l2Diff` end to end: from the books of the nodes, through the arbiter, to the book a client
rebuilds from what it is sent. */
module DiffStream {
  import opened Wire
  import opened Books
  import opened Arbiter
  import opened Entries
  import opened Streams
  import opened Epochs
  import opened LateJoin

  datatype Sides = Sides(bids: seq<Level>, asks: seq<Level>)

  /** A node's book after each of its flushes, and the block height of each flush. */
  datatype Node = Node(sides: nat -> Sides, height: nat -> nat) {
    function BookAt(n: nat): Book {
      BookFromLevels(sides(n).bids, sides(n).asks)
    }
  }

  /** Heights are positive and never fall; several flushes may share one. */
  ghost predicate Steady(node: Node) {
    node.height(0) > 0 && forall n: nat :: node.height(n) <= node.height(n + 1)
  }

  /** What a node sends: its book first, then for each flush the diff from its own previous book. */
  function NodeFrame(key: SubKey, node: Node, n: nat): Frame
    requires key.L2Diff?
  {
    var head := L2DiffHead(key.coin, node.height(n), key.nSigFigs, key.nLevels, key.mantissa);
    var now := node.sides(n);
    if n == 0 then L2DiffSnapshotFrame(head, now.bids, now.asks)
    else
      var before := node.sides(n - 1);
      L2DiffUpdatesFrame(head, DiffSide(before.bids, now.bids), DiffSide(before.asks, now.asks))
  }

  /** The message is frame number `n` of the node, and is ordered as routing says. */
  ghost predicate IsFrame(key: SubKey, node: Node, src: nat, n: nat, m: Msg) {
    && key.L2Diff?
    && m.src == src
    && m.payload.frame == NodeFrame(key, node, n)
    && Route(m.payload.frame) == Some((key, m.ord))
  }

  lemma FrameOrder(key: SubKey, node: Node, src: nat, n: nat, m: Msg)
    requires IsFrame(key, node, src, n, m)
    ensures m.ord == if n == 0 then Snapshot(node.height(0)) else Sticky(node.height(n))
  {
    hide DiffSide;
  }

  function SentBy(evs: seq<KeyEvent>, src: nat): nat {
    if evs == [] then 0
    else
      var k := |evs| - 1;
      SentBy(evs[..k], src) + if evs[k].Arrive? && evs[k].msg.src == src then 1 else 0
  }

  /** Every frame that arrives is the next one of its source. */
  ghost predicate Scripted(key: SubKey, nodes: nat -> Node, evs: seq<KeyEvent>) {
    forall i :: 0 <= i < |evs| && evs[i].Arrive? ==>
      var s := evs[i].msg.src;
      IsFrame(key, nodes(s), s, SentBy(evs[..i], s), evs[i].msg)
  }

  // ---------- The client's side ----------

  /** The book a client has rebuilt: a snapshot replaces it, an increment is applied to it, and
      increments before the first snapshot are passed over. */
  function ClientBook(stream: seq<Msg>): Option<Book> {
    if stream == [] then None
    else
      var k := |stream| - 1;
      var book := ClientBook(stream[..k]);
      match stream[k].payload.frame
      case L2DiffSnapshotFrame(_, bids, asks) => Some(BookFromLevels(bids, asks))
      case L2DiffUpdatesFrame(_, bids, asks) =>
        if book.None? then None else Some(ApplyBook(book.value, bids, asks))
      case _ => book
  }

  /** The messages are the frames `from`, `from + 1`, ... of the node. */
  ghost predicate Frames(key: SubKey, node: Node, src: nat, from: nat, s: seq<Msg>) {
    forall i :: 0 <= i < |s| ==> IsFrame(key, node, src, from + i, s[i])
  }

  lemma ApplyNext(node: Node, n: nat)
    requires n > 0
    ensures ApplyBook(node.BookAt(n - 1),
                      DiffSide(node.sides(n - 1).bids, node.sides(n).bids),
                      DiffSide(node.sides(n - 1).asks, node.sides(n).asks))
         == node.BookAt(n)
  {
    ApplyInvertsDiff(node.sides(n - 1).bids, node.sides(n).bids);
    ApplyInvertsDiff(node.sides(n - 1).asks, node.sides(n).asks);
  }

  /** A snapshot of the node's book followed by the node's next increments rebuilds its book. */
  lemma {:induction false} ReplayRebuilds(
      key: SubKey, node: Node, src: nat, n: nat, s: seq<Msg>, rest: seq<Msg>)
    requires s != [] && ClientBook(s) == Some(node.BookAt(n))
    requires Frames(key, node, src, n + 1, rest)
    ensures ClientBook(s + rest) == Some(node.BookAt(n + |rest|))
  {
    hide DiffSide, ApplyBook, Route;
    if rest == [] {
      assert s + rest == s;
    } else {
      var k := |rest| - 1;
      assert (s + rest)[..|s| + k] == s + rest[..k];
      ReplayRebuilds(key, node, src, n, s, rest[..k]);
      ApplyNext(node, n + 1 + k);
      assert IsFrame(key, node, src, n + 1 + k, rest[k]);
    }
  }

  lemma FramesTail(key: SubKey, node: Node, src: nat, from: nat, s: seq<Msg>, k: nat)
    requires Frames(key, node, src, from, s) && k <= |s|
    ensures Frames(key, node, src, from + k, s[k..])
  {
    hide IsFrame;
    forall i | 0 <= i < |s[k..]| ensures IsFrame(key, node, src, from + k + i, s[k..][i]) {
      assert IsFrame(key, node, src, from + (k + i), s[k + i]);
    }
  }

  lemma FramesAppend(key: SubKey, node: Node, src: nat, from: nat, s: seq<Msg>, m: Msg)
    requires Frames(key, node, src, from, s) && IsFrame(key, node, src, from + |s|, m)
    ensures Frames(key, node, src, from, s + [m])
  {
    hide IsFrame;
  }

  lemma SnapshotStarts(s: seq<Msg>)
    requires |s| == 1 && s[0].payload.frame.L2DiffSnapshotFrame?
    ensures ClientBook(s) == Some(BookFromLevels(s[0].payload.frame.bidLevels, s[0].payload.frame.askLevels))
  {
    assert s[..0] == [];
  }

  lemma FramesRebuild(key: SubKey, node: Node, src: nat, s: seq<Msg>)
    requires s != [] && Frames(key, node, src, 0, s)
    ensures ClientBook(s) == Some(node.BookAt(|s| - 1))
  {
    hide DiffSide, Route, ClientBook;
    assert IsFrame(key, node, src, 0 + 0, s[0]);
    SnapshotStarts(s[..1]);
    FramesTail(key, node, src, 0, s, 1);
    hide Frames, IsFrame;
    ReplayRebuilds(key, node, src, 0, s[..1], s[1..]);
    assert s == s[..1] + s[1..];
  }

  // ---------- Through the arbiter ----------

  /** Following node `leader`: exactly its frames so far have gone out, and the entry is at the height
      of the last of them. With nobody leading, nobody has sent anything. */
  ghost predicate Following(key: SubKey, nodes: nat -> Node, arb: Arb, evs: seq<KeyEvent>, out: seq<Msg>) {
    match arb.leader
    case None => out == [] && arb.last == 0 && forall s :: SentBy(evs, s) == 0
    case Some(leader) =>
      && |out| == SentBy(evs, leader)
      && Frames(key, nodes(leader), leader, 0, out)
      && arb.last == if out == [] then 0 else nodes(leader).height(|out| - 1)
  }

  lemma SentByAppend(evs: seq<KeyEvent>, ev: KeyEvent, s: nat)
    ensures SentBy(evs + [ev], s) == SentBy(evs, s) + if ev.Arrive? && ev.msg.src == s then 1 else 0
  {
    assert (evs + [ev])[..|evs|] == evs;
  }

  /** What arbitration does with the next frame of a scripted source: the followed source's goes out,
      and so does the first frame of all; anyone else's does not. */
  lemma ScriptedRuling(key: SubKey, nodes: nat -> Node, arb: Arb, evs: seq<KeyEvent>, out: seq<Msg>, m: Msg, now: nat)
    requires key.L2Diff? && Following(key, nodes, arb, evs, out)
    requires IsFrame(key, nodes(m.src), m.src, SentBy(evs, m.src), m) && Steady(nodes(m.src))
    ensures var r, n := Arbitrate(key, arb, m.src, m.ord, now), SentBy(evs, m.src);
            if arb.leader.None? || arb.leader == Some(m.src) then
              r.deliver && r.arb.leader == Some(m.src) && r.arb.last == nodes(m.src).height(n)
              && |out| == n
            else
              !r.deliver && r.arb.leader == arb.leader && r.arb.last == arb.last
  {
    hide Bumped, DiffSide, Route, IsFrame, Frames;
    FrameOrder(key, nodes(m.src), m.src, SentBy(evs, m.src), m);
    var n := SentBy(evs, m.src);
    if n > 0 {
      assert nodes(m.src).height(n - 1) <= nodes(m.src).height(n - 1 + 1);
    }
  }

  lemma ArriveFollows(
      key: SubKey, nodes: nat -> Node, e: Entry, evs: seq<KeyEvent>, out: seq<Msg>, m: Msg, now: nat)
    requires key.L2Diff? && Following(key, nodes, e.arb, evs, out)
    requires IsFrame(key, nodes(m.src), m.src, SentBy(evs, m.src), m) && Steady(nodes(m.src))
    ensures Following(key, nodes, UpdateEntry(key, e, m, now).arb, evs + [Arrive(m, now)],
                      out + Forwards(key, e, Arrive(m, now)))
  {
    hide Kept, HeldFor, IsFrame, Frames;
    ScriptedRuling(key, nodes, e.arb, evs, out, m, now);
    hide Arbitrate;
    SentByAppend(evs, Arrive(m, now), m.src);
    if e.arb.leader.None? || e.arb.leader == Some(m.src) {
      assert Frames(key, nodes(m.src), m.src, 0, out) by {
        FramesOfNothing(key, nodes(m.src), m.src, out);
      }
      FramesAppend(key, nodes(m.src), m.src, 0, out, m);
    } else {
      SentByAppend(evs, Arrive(m, now), e.arb.leader.value);
      assert out + [] == out;
    }
  }

  lemma FramesOfNothing(key: SubKey, node: Node, src: nat, out: seq<Msg>)
    ensures out == [] ==> Frames(key, node, src, 0, out)
  {
  }

  lemma StepFollows(
      key: SubKey, nodes: nat -> Node, e: Entry, evs: seq<KeyEvent>, out: seq<Msg>, ev: KeyEvent)
    requires key.L2Diff? && Following(key, nodes, e.arb, evs, out)
    requires !Frees(key, e, ev) && !Drops(e, ev) && !Steals(key, e, ev)
    requires ev.Arrive? ==>
               var m := ev.msg;
               IsFrame(key, nodes(m.src), m.src, SentBy(evs, m.src), m) && Steady(nodes(m.src))
    ensures Following(key, nodes, KeyStep(key, e, ev).arb, evs + [ev], out + Forwards(key, e, ev))
  {
    hide UpdateEntry, IsFrame, LeaveDrops, Without, WithoutPending;
    if ev.Arrive? {
      ArriveFollows(key, nodes, e, evs, out, ev.msg, ev.now);
    } else {
      assert out + Forwards(key, e, ev) == out;
      forall s ensures SentBy(evs + [ev], s) == SentBy(evs, s) {
        SentByAppend(evs, ev, s);
      }
    }
  }

  lemma ScriptedPrefix(key: SubKey, nodes: nat -> Node, evs: seq<KeyEvent>, n: nat)
    requires Scripted(key, nodes, evs) && n <= |evs|
    ensures Scripted(key, nodes, evs[..n])
  {
    hide IsFrame;
    forall i | 0 <= i < n ensures evs[..n][..i] == evs[..i] && evs[..n][i] == evs[i] {
    }
  }

  lemma {:induction false} RunFollows(key: SubKey, nodes: nat -> Node, e: Entry, evs: seq<KeyEvent>)
    requires key.L2Diff? && e.arb.leader.None? && e.arb.last == 0
    requires OneEpoch(key, e, evs) && NobodySteals(key, e, evs)
    requires Scripted(key, nodes, evs) && forall s :: Steady(nodes(s))
    ensures Following(key, nodes, Run(key, e, evs).arb, evs, Forwarded(key, e, evs))
  {
    hide KeyStep, Forwards, Frees, Drops, Steals, IsFrame, Steady;
    if evs != [] {
      var k := |evs| - 1;
      ScriptedPrefix(key, nodes, evs, k);
      EpochPrefix(key, e, evs, k);
      RunFollows(key, nodes, e, evs[..k]);
      StepFollows(key, nodes, Run(key, e, evs[..k]), evs[..k], Forwarded(key, e, evs[..k]), evs[k]);
      assert evs == evs[..k] + [evs[k]];
    }
  }

  /** A client attached to a fresh entry: whatever the nodes' books, however their frames interleave
      and whoever else comes and goes, as long as no leader is lost and waiting clients are answered
      by the node being followed, the client is sent exactly the frames that one node has sent, and
      the book it rebuilds from them is that node's book after each of its frames. */
  lemma ClientRebuildsTheLeadersBook(
      key: SubKey, nodes: nat -> Node, e: Entry, evs: seq<KeyEvent>, c: nat)
    requires key.L2Diff? && WellFormed(key, e) && LegalRun(key, e, evs)
    requires e.arb.leader.None? && c in e.subscribers
    requires LeaderStays(key, e, evs) && Leave(c) !in evs && NobodySteals(key, e, evs)
    requires Scripted(key, nodes, evs) && forall s :: Steady(nodes(s))
    ensures var (stream, leader) := (Stream(key, e, evs, c), Run(key, e, evs).arb.leader);
            match leader
            case None => stream == []
            case Some(l) =>
              && |stream| == SentBy(evs, l)
              && Frames(key, nodes(l), l, 0, stream)
              && ClientBook(stream) == if stream == [] then None else Some(nodes(l).BookAt(|stream| - 1))
  {
    AttachedKeepsEpoch(key, e, evs, c);
    AttachedHearsEverything(key, e, evs, c);
    RunFollows(key, nodes, e, evs);
    hide WellFormed, LegalRun, OneEpoch, NobodySteals, Run, Stream, Forwarded, Scripted, LeaderStays;
    var stream, leader := Stream(key, e, evs, c), Run(key, e, evs).arb.leader;
    if leader.Some? && stream != [] {
      FramesRebuild(key, nodes(leader.value), leader.value, stream);
    }
  }

  // ---------- The late joiner's book ----------

  lemma {:induction false} HeightsRise(node: Node, a: nat, b: nat)
    requires Steady(node) && a <= b
    ensures node.height(a) <= node.height(b)
  {
    if a < b {
      HeightsRise(node, a, b - 1);
      assert node.height(b - 1) <= node.height(b - 1 + 1);
    }
  }

  lemma FramesStamps(key: SubKey, node: Node, src: nat, from: nat, s: seq<Msg>)
    requires Steady(node) && Frames(key, node, src, from, s)
    ensures forall m <- s :: node.height(from) <= m.ord.stamp
    ensures s != [] ==> forall m <- s :: m.ord.stamp <= node.height(from + |s| - 1)
  {
    hide NodeFrame, Route, Steady;
    forall m | m in s
      ensures node.height(from) <= m.ord.stamp && m.ord.stamp <= node.height(from + |s| - 1)
    {
      var i :| 0 <= i < |s| && s[i] == m;
      assert IsFrame(key, node, src, from + i, s[i]);
      FrameOrder(key, node, src, from + i, m);
      HeightsRise(node, from, from + i);
      HeightsRise(node, from + i, from + |s| - 1);
    }
  }

  lemma FramesHead(key: SubKey, node: Node, src: nat, s: seq<Msg>, k: nat)
    requires Frames(key, node, src, 0, s) && k <= |s|
    ensures Frames(key, node, src, 0, s[..k])
  {
    hide IsFrame;
    forall i | 0 <= i < k ensures IsFrame(key, node, src, 0 + i, s[..k][i]) {
      assert IsFrame(key, node, src, 0 + i, s[i]);
    }
  }

  /** Of a node's frames, those above the height of frame `at` are exactly the ones after it, provided
      the block of that frame ended with it. */
  lemma FramesAbove(key: SubKey, node: Node, src: nat, s: seq<Msg>, at: nat)
    requires Steady(node) && Frames(key, node, src, 0, s) && at < |s|
    requires node.height(at) < node.height(at + 1)
    ensures Above(s, node.height(at)) == s[at + 1..]
  {
    hide Frames, Steady, Above;
    var height := node.height(at);
    var head, tail := s[..at + 1], s[at + 1..];
    FramesHead(key, node, src, s, at + 1);
    FramesTail(key, node, src, 0, s, at + 1);
    FramesStamps(key, node, src, 0, head);
    FramesStamps(key, node, src, 0 + (at + 1), tail);
    assert NoneAbove(head, height) && AllAbove(tail, height);
    hide NoneAbove, AllAbove;
    assert s == head + tail;
    AboveSplit(head, tail, height);
    AboveNone(head, height);
    AboveAll(tail, height);
  }

  /** The snapshot is the node's book as of its frame `at`, stamped with that frame's height. */
  ghost predicate IsSnapshotOf(key: SubKey, node: Node, at: nat, m: Msg) {
    && m.payload.frame.L2DiffSnapshotFrame?
    && BookFromLevels(m.payload.frame.bidLevels, m.payload.frame.askLevels) == node.BookAt(at)
    && m.ord == Snapshot(node.height(at))
  }

  /** When the joiner is answered, the run so far and what is still to come. */
  function UpToAnswer(st: Story): seq<KeyEvent> {
    st.before + [Join(st.joiner)] + st.waiting
  }

  lemma AnswerSplits(key: SubKey, e: Entry, st: Story)
    ensures Run(key, e, UpToAnswer(st)) == AtAnswer(key, e, st)
    ensures st.Whole() == UpToAnswer(st) + ([Answer(st.joiner, st.snapshot)] + st.after)
  {
    hide KeyStep, Run;
    RunSplit(key, e, st.before + [Join(st.joiner)], st.waiting);
    RunSplit(key, e, st.before, [Join(st.joiner)]);
    RunOne(key, Run(key, e, st.before), Join(st.joiner), 0);
  }

  /** The followed source keeps the lead to the end, and the frame its snapshot was taken at had gone
      out before the snapshot arrived. */
  lemma SnapshotWasReached(key: SubKey, nodes: nat -> Node, e: Entry, st: Story, first: nat, at: nat)
    requires key.L2Diff? && Plausible(key, e, st, first) && e.arb.leader.None?
    requires NobodySteals(key, e, st.Whole()) && LedBy(AtAnswer(key, e, st), st.snapshot.src)
    requires Scripted(key, nodes, st.Whole()) && forall s :: Steady(nodes(s))
    requires nodes(st.snapshot.src).height(at) < AtAnswer(key, e, st).arb.last
    ensures Run(key, e, st.Whole()).arb.leader == Some(st.snapshot.src)
    ensures at + 1 < |Stream(key, e, st.Whole(), first)|
  {
    hide Plausible, NobodySteals, Scripted, AtAnswer, Run, Stream, Forwarded, Frames;
    var pre, rest := UpToAnswer(st), [Answer(st.joiner, st.snapshot)] + st.after;
    AnswerSplits(key, e, st);
    PlausibleMeans(key, e, st, first);
    AttachedKeepsEpoch(key, e, st.Whole(), first);
    AttachedHearsEverything(key, e, st.Whole(), first);
    hide UpToAnswer, LeaderStays, LegalRun, WellFormed, OneEpoch;
    EpochSplit(key, e, pre, rest);
    LegalSplit(key, e, pre, rest);
    RunSplit(key, e, pre, rest);
    ForwardedSplit(key, e, pre, rest);
    EpochHasOneSource(key, Run(key, e, pre), rest);
    ScriptedPrefix(key, nodes, st.Whole(), |pre|);
    assert st.Whole()[..|pre|] == pre;
    assert e.arb.last == 0 by { FreshHeight(key, e, st, first); }
    RunFollows(key, nodes, e, pre);
    var out := Forwarded(key, e, pre);
    if at + 1 >= |out| && out != [] {
      HeightsRise(nodes(st.snapshot.src), |out| - 1, at);
    }
  }

  lemma AnsweredByLeader(key: SubKey, node: Node, e: Entry, st: Story, at: nat)
    requires key.L2Diff? && FollowedSource(key, e, st) && IsSnapshotOf(key, node, at, st.snapshot)
    ensures LedBy(AtAnswer(key, e, st), st.snapshot.src) && st.Height() == node.height(at)
  {
    hide AtAnswer, NobodySteals;
  }

  lemma FreshHeight(key: SubKey, e: Entry, st: Story, first: nat)
    requires key.L2Diff? && Plausible(key, e, st, first) && e.arb.leader.None?
    ensures e.arb.last == 0
  {
    hide LegalRun, LeaderStays, Run, AtAnswer;
  }

  /** A client that joins an `l2Diff` stream late rebuilds the same book as the one that was there
      first, if the snapshot it is given was taken after the last flush of its block. */
  lemma LateJoinerRebuildsTheLeadersBook(
      key: SubKey, nodes: nat -> Node, e: Entry, st: Story, first: nat, at: nat)
    requires key.L2Diff? && Plausible(key, e, st, first) && e.arb.leader.None?
    requires NobodySteals(key, e, st.Whole()) && FollowedSource(key, e, st)
    requires Scripted(key, nodes, st.Whole()) && forall s :: Steady(nodes(s))
    requires AtJoin(key, e, st).arb.last <= st.Height() < AtAnswer(key, e, st).arb.last
    requires var node := nodes(st.snapshot.src);
             && IsSnapshotOf(key, node, at, st.snapshot) && node.height(at + 1) > node.height(at)
    ensures ClientBook(JoinerStream(key, e, st)) == ClientBook(Stream(key, e, st.Whole(), first))
  {
    hide Plausible, NobodySteals, Scripted, FollowedSource, Run, JoinerStream, Stream, Above, Frames;
    hide ClientBook, Steady, AtJoin, AtAnswer, BookFromLevels, DiffSide, IsSnapshotOf;
    PlausibleMeans(key, e, st, first);
    AnsweredByLeader(key, nodes(st.snapshot.src), e, st, at);
    SnapshotWasReached(key, nodes, e, st, first, at);
    ClientRebuildsTheLeadersBook(key, nodes, e, st.Whole(), first);
    LateJoinerIsEquivalent(key, e, st, first);
    SnapshotThenRest(key, nodes(st.snapshot.src), st.snapshot.src, Stream(key, e, st.Whole(), first), at, st.snapshot);
  }

  lemma PlausibleMeans(key: SubKey, e: Entry, st: Story, first: nat)
    requires Plausible(key, e, st, first)
    ensures WellFormed(key, e) && LegalRun(key, e, st.Whole()) && first in e.subscribers
    ensures LeaderStays(key, e, st.Whole()) && Leave(first) !in st.Whole()
  {
    hide WellFormed, LegalRun, LeaderStays, Run;
  }

  lemma SnapshotThenRest(key: SubKey, node: Node, src: nat, s: seq<Msg>, at: nat, snapshot: Msg)
    requires Steady(node) && Frames(key, node, src, 0, s) && at < |s|
    requires IsSnapshotOf(key, node, at, snapshot) && node.height(at) < node.height(at + 1)
    ensures ClientBook([snapshot] + Above(s, snapshot.ord.stamp)) == Some(node.BookAt(|s| - 1))
  {
    hide Frames, Steady, Above, ClientBook, BookFromLevels;
    FramesAbove(key, node, src, s, at);
    FramesTail(key, node, src, 0, s, at + 1);
    SnapshotStarts([snapshot]);
    ReplayRebuilds(key, node, src, at, [snapshot], s[at + 1..]);
  }
}
