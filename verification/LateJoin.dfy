/** A client that joins an incremental stream late, waits for a snapshot and is then attached. */
module LateJoin {
  import opened Wire
  import opened Arbiter
  import opened Entries
  import opened Streams
  import opened Epochs

  /** The messages above a height, in order. */
  function Above(s: seq<Msg>, height: nat): seq<Msg> {
    if s == [] then []
    else
      var k := |s| - 1;
      Above(s[..k], height) + if s[k].ord.stamp > height then [s[k]] else []
  }

  lemma {:induction false} AboveSplit(a: seq<Msg>, b: seq<Msg>, height: nat)
    ensures Above(a + b, height) == Above(a, height) + Above(b, height)
  {
    if b == [] {
      assert a + b == a;
    } else {
      var k := |b| - 1;
      assert (a + b)[..|a| + k] == a + b[..k];
      AboveSplit(a, b[..k], height);
    }
  }

  lemma {:induction false} AboveAll(s: seq<Msg>, height: nat)
    ensures |Above(s, height)| <= |s|
    ensures AllAbove(Above(s, height), height)
    ensures Above(s, height) == s <==> AllAbove(s, height)
  {
    if s != [] {
      var k := |s| - 1;
      AboveAll(s[..k], height);
      assert s == s[..k] + [s[k]];
    }
  }

  lemma {:induction false} AboveNone(s: seq<Msg>, height: nat)
    ensures Above(s, height) == [] <==> NoneAbove(s, height)
  {
    if s != [] {
      var k := |s| - 1;
      AboveNone(s[..k], height);
      assert s == s[..k] + [s[k]];
    }
  }

  lemma {:induction false} BacklogIsAbove(held: seq<Msg>, height: nat, single: bool, source: nat)
    requires single ==> AllFrom(held, Some(source))
    ensures Backlog(held, height, single, source) == Above(held, height)
  {
    if held != [] {
      BacklogIsAbove(held[..|held| - 1], height, single, source);
    }
  }

  ghost predicate AllAbove(s: seq<Msg>, height: nat) {
    forall m <- s :: m.ord.stamp > height
  }

  ghost predicate NoneAbove(s: seq<Msg>, height: nat) {
    forall m <- s :: m.ord.stamp <= height
  }

  /** Gluing the filtered middle to an unfiltered end gives the filtered whole exactly when the filter
      removes all of the beginning and none of the end. */
  lemma FilteredWholeIff(p: seq<Msg>, f: seq<Msg>, g: seq<Msg>, height: nat)
    ensures Above(f, height) + g == Above(p + f + g, height)
       <==> NoneAbove(p, height) && AllAbove(g, height)
  {
    var x, y, z := Above(p, height), Above(f, height), Above(g, height);
    AboveSplit(p + f, g, height);
    AboveSplit(p, f, height);
    AboveNone(p, height);
    AboveAll(g, height);
    AboveAll(p + f + g, height);
    hide Above;
    if y + g == x + y + z {
      forall m | m in g ensures m.ord.stamp > height {
        assert m in y + g;
      }
      assert z == g;
      assert |x| == 0;
    }
  }

  /** The late joiner's story: `before` is the run up to the join, `waiting` the run while it waits,
      `after` the run once it is attached. */
  datatype Story = Story(
    before: seq<KeyEvent>, joiner: nat, waiting: seq<KeyEvent>, snapshot: Msg, after: seq<KeyEvent>)
  {
    function Whole(): seq<KeyEvent> {
      before + [Join(joiner)] + waiting + [Answer(joiner, snapshot)] + after
    }
    function Height(): nat { snapshot.ord.stamp }
  }

  /** The entry before the join, after it, when the snapshot arrives, and once it is answered. */
  function AtJoin(key: SubKey, e: Entry, st: Story): Entry {
    Run(key, e, st.before)
  }

  function Joined(key: SubKey, e: Entry, st: Story): Entry {
    KeyStep(key, AtJoin(key, e, st), Join(st.joiner))
  }

  function AtAnswer(key: SubKey, e: Entry, st: Story): Entry {
    Run(key, Joined(key, e, st), st.waiting)
  }

  function Attached(key: SubKey, e: Entry, st: Story): Entry {
    KeyStep(key, AtAnswer(key, e, st), Answer(st.joiner, st.snapshot))
  }

  /** What goes out before the join, while the client waits, and once it is attached. */
  function OutBefore(key: SubKey, e: Entry, st: Story): seq<Msg> {
    Forwarded(key, e, st.before)
  }

  function OutWaiting(key: SubKey, e: Entry, st: Story): seq<Msg> {
    Forwarded(key, Joined(key, e, st), st.waiting)
  }

  function OutAfter(key: SubKey, e: Entry, st: Story): seq<Msg> {
    Forwarded(key, Attached(key, e, st), st.after)
  }

  /** What the joiner is offered from its join on. */
  function JoinerStream(key: SubKey, e: Entry, st: Story): seq<Msg> {
    Stream(key, Joined(key, e, st), st.waiting + [Answer(st.joiner, st.snapshot)] + st.after, st.joiner)
  }

  /** A legal run on an incremental channel in which `first` is attached throughout; the joiner was not
      listed before, is still waiting when its snapshot arrives, and stays attached afterwards. */
  ghost predicate Plausible(key: SubKey, e: Entry, st: Story, first: nat) {
    && key.IsIncremental()
    && WellFormed(key, e)
    && LegalRun(key, e, st.Whole())
    && first in e.subscribers && first != st.joiner
    && LeaderStays(key, e, st.Whole()) && Leave(first) !in st.Whole()
    && Unconcerned(st.waiting, st.joiner)
    && IsParked(AtAnswer(key, e, st).pending, st.joiner)
    && Leave(st.joiner) !in st.after
  }

  /** The pieces of the story as runs in their own right. */
  ghost predicate Pieces(key: SubKey, e: Entry, st: Story, first: nat) {
    && LegalRun(key, e, st.before) && OneEpoch(key, e, st.before)
    && WellFormed(key, AtJoin(key, e, st)) && first in AtJoin(key, e, st).subscribers
    && WellFormed(key, Joined(key, e, st))
    && LegalRun(key, Joined(key, e, st), st.waiting) && OneEpoch(key, Joined(key, e, st), st.waiting)
    && WellFormed(key, AtAnswer(key, e, st))
    && WellFormed(key, Attached(key, e, st))
    && LegalRun(key, Attached(key, e, st), st.after) && OneEpoch(key, Attached(key, e, st), st.after)
  }

  lemma RunOne(key: SubKey, e: Entry, ev: KeyEvent, c: nat)
    ensures Run(key, e, [ev]) == KeyStep(key, e, ev)
    ensures Forwarded(key, e, [ev]) == Forwards(key, e, ev)
    ensures Stream(key, e, [ev], c) == Offers(key, e, ev, c)
  {
    hide KeyStep, Forwards, Offers;
    assert [ev][..0] == [];
  }

  lemma Piecewise(key: SubKey, e: Entry, st: Story, first: nat)
    requires Plausible(key, e, st, first)
    ensures Pieces(key, e, st, first)
  {
    hide KeyStep, WellFormed, Legal, OneEpoch, LegalRun, LeaderStays, IsParked;
    var whole := st.Whole();
    AttachedKeepsEpoch(key, e, whole, first);
    var j, w, an, a := [Join(st.joiner)], st.waiting, [Answer(st.joiner, st.snapshot)], st.after;
    assert whole == st.before + (j + (w + (an + a)));
    var e1, e2, e3, e4 := AtJoin(key, e, st), Joined(key, e, st), AtAnswer(key, e, st), Attached(key, e, st);
    LegalSplit(key, e, st.before, j + (w + (an + a)));
    EpochSplit(key, e, st.before, j + (w + (an + a)));
    RunKeepsWellFormed(key, e, st.before);
    LegalSplit(key, e1, j, w + (an + a));
    EpochSplit(key, e1, j, w + (an + a));
    RunOne(key, e1, j[0], 0);
    RunKeepsWellFormed(key, e1, j);
    LegalSplit(key, e2, w, an + a);
    EpochSplit(key, e2, w, an + a);
    RunKeepsWellFormed(key, e2, w);
    LegalSplit(key, e3, an, a);
    EpochSplit(key, e3, an, a);
    RunOne(key, e3, an[0], 0);
    RunKeepsWellFormed(key, e3, an);
    UndisturbedPrefix(key, e, whole, |st.before|, first);
    assert whole[..|st.before|] == st.before;
    AttachedHearsEverything(key, e, st.before, first);
  }

  lemma WholeForwarded(key: SubKey, e: Entry, st: Story)
    ensures Forwarded(key, e, st.Whole())
         == OutBefore(key, e, st) + OutWaiting(key, e, st) + OutAfter(key, e, st)
  {
    hide KeyStep, Run, Forwarded;
    var j, w, an, a := [Join(st.joiner)], st.waiting, [Answer(st.joiner, st.snapshot)], st.after;
    assert st.Whole() == st.before + (j + (w + (an + a)));
    var e1, e2, e3 := AtJoin(key, e, st), Joined(key, e, st), AtAnswer(key, e, st);
    ForwardedSplit(key, e, st.before, j + (w + (an + a)));
    ForwardedSplit(key, e1, j, w + (an + a));
    RunOne(key, e1, j[0], 0);
    ForwardedSplit(key, e2, w, an + a);
    ForwardedSplit(key, e3, an, a);
    RunOne(key, e3, an[0], 0);
    assert Forwards(key, e1, j[0]) == [] && Forwards(key, e3, an[0]) == [];
  }

  lemma FirstHears(key: SubKey, e: Entry, st: Story, first: nat)
    requires Plausible(key, e, st, first)
    ensures Stream(key, e, st.Whole(), first)
         == OutBefore(key, e, st) + OutWaiting(key, e, st) + OutAfter(key, e, st)
  {
    hide KeyStep, WellFormed, OneEpoch, LegalRun, LeaderStays, IsParked, Run, Stream, Forwarded;
    AttachedKeepsEpoch(key, e, st.Whole(), first);
    AttachedHearsEverything(key, e, st.Whole(), first);
    WholeForwarded(key, e, st);
  }

  lemma JoinParks(key: SubKey, e: Entry, c: nat)
    requires key.IsIncremental() && e.upstream && c !in Listed(e)
    ensures IsParked(JoinEntry(key, e, c).pending, c)
    ensures HeldBehind(JoinEntry(key, e, c), c) == []
  {
    ParkedIff(e.pending, c);
    PositionAtEnd(e.pending, Pending(c, [], 0));
  }

  lemma {:induction false} PositionAtEnd(p: seq<Pending>, x: Pending)
    requires !IsParked(p, x.client)
    ensures Position(p + [x], x.client) == |p|
  {
    if p != [] {
      assert !IsParked(p[1..], x.client);
      assert (p + [x])[1..] == p[1..] + [x];
      PositionAtEnd(p[1..], x);
    }
  }

  lemma JoinerHears(key: SubKey, e: Entry, st: Story, first: nat)
    requires Plausible(key, e, st, first)
    ensures var held := OutWaiting(key, e, st);
            JoinerStream(key, e, st) ==
              [st.snapshot]
              + Backlog(held, st.Height(), key.SingleSourced(), st.snapshot.src)
              + OutAfter(key, e, st)
  {
    hide KeyStep, WellFormed, OneEpoch, LegalRun, LeaderStays, IsParked, Offers, Listed;
    Piecewise(key, e, st, first);
    var w, an, a := st.waiting, [Answer(st.joiner, st.snapshot)], st.after;
    var e1, e2, e3, e4 := AtJoin(key, e, st), Joined(key, e, st), AtAnswer(key, e, st), Attached(key, e, st);
    JoinerWaits(key, e, st, first);
    assert w + an + a == w + (an + a);
    StreamSplit(key, e2, w, an + a, st.joiner);
    StreamSplit(key, e3, an, a, st.joiner);
    RunOne(key, e3, an[0], st.joiner);
    AnswerAttaches(key, e3, st.joiner, st.snapshot);
    EpochNeverFrees(key, e4, a);
    AttachedKeepsEpoch(key, e4, a, st.joiner);
    AttachedHearsEverything(key, e4, a, st.joiner);
  }

  lemma EpochNeverFrees(key: SubKey, e: Entry, evs: seq<KeyEvent>)
    requires OneEpoch(key, e, evs)
    ensures LeaderStays(key, e, evs)
    ensures key.IsIncremental() ==> NeverParks(key, e, evs)
  {
    hide Run, Drops, LedBy;
    forall i | 0 <= i < |evs| ensures !Frees(key, Run(key, e, evs[..i]), evs[i]) {
    }
  }

  lemma AnswerAttaches(key: SubKey, e: Entry, c: nat, snapshot: Msg)
    requires IsParked(e.pending, c)
    ensures c in KeyStep(key, e, Answer(c, snapshot)).subscribers
    ensures Offers(key, e, Answer(c, snapshot), c)
         == [snapshot] + Backlog(HeldBehind(e, c), snapshot.ord.stamp, key.SingleSourced(), snapshot.src)
  {
    hide Backlog;
  }

  lemma JoinerWaits(key: SubKey, e: Entry, st: Story, first: nat)
    requires Plausible(key, e, st, first)
    ensures HeldBehind(AtAnswer(key, e, st), st.joiner) == OutWaiting(key, e, st)
    ensures Stream(key, Joined(key, e, st), st.waiting, st.joiner) == []
  {
    hide OneEpoch, LegalRun, LeaderStays, Run, Listed;
    Piecewise(key, e, st, first);
    JoinIsLegal(key, e, st);
    JoinParks(key, AtJoin(key, e, st), st.joiner);
    hide KeyStep, WellFormed;
    EpochNeverFrees(key, Joined(key, e, st), st.waiting);
    WaitingHoldsEverything(key, Joined(key, e, st), st.waiting, st.joiner);
  }

  lemma JoinIsLegal(key: SubKey, e: Entry, st: Story)
    requires LegalRun(key, e, st.Whole())
    ensures st.joiner !in Listed(AtJoin(key, e, st))
  {
    hide Run;
    assert st.Whole()[..|st.before|] == st.before;
    assert st.Whole()[|st.before|] == Join(st.joiner);
    assert Legal(key, Run(key, e, st.Whole()[..|st.before|]), st.Whole()[|st.before|]);
  }

  /** On a single-sourced channel the joiner is rebuilt on a snapshot of the source being followed, and
      nobody else's answer took the lead while it waited. */
  ghost predicate FollowedSource(key: SubKey, e: Entry, st: Story) {
    key.SingleSourced() ==>
      && LedBy(AtAnswer(key, e, st), st.snapshot.src)
      && NobodySteals(key, Joined(key, e, st), st.waiting)
  }

  lemma WaitingFromFollowed(key: SubKey, e: Entry, st: Story, first: nat)
    requires Plausible(key, e, st, first) && FollowedSource(key, e, st)
    ensures key.SingleSourced() ==> AllFrom(OutWaiting(key, e, st), Some(st.snapshot.src))
  {
    hide KeyStep, WellFormed, OneEpoch, LegalRun, LeaderStays, IsParked, Run, NobodySteals, Forwarded;
    Piecewise(key, e, st, first);
    if key.SingleSourced() {
      EpochHasOneSource(key, Joined(key, e, st), st.waiting);
    }
  }

  /** What the joiner gets after its snapshot is the stream of the client that was there all along,
      less what the snapshot already contains, exactly when the snapshot is no older than anything
      sent before the join and older than everything sent after it is attached. */
  lemma LateJoinerExactly(key: SubKey, e: Entry, st: Story, first: nat)
    requires Plausible(key, e, st, first) && FollowedSource(key, e, st)
    ensures var s := JoinerStream(key, e, st);
            && s != [] && s[0] == st.snapshot
            && (s[1..] == Above(Stream(key, e, st.Whole(), first), st.Height())
                <==> NoneAbove(OutBefore(key, e, st), st.Height()) && AllAbove(OutAfter(key, e, st), st.Height()))
  {
    hide Plausible, Stream, Forwarded, JoinerStream, AllFrom, FollowedSource;
    var p, f, g := OutBefore(key, e, st), OutWaiting(key, e, st), OutAfter(key, e, st);
    FirstHears(key, e, st, first);
    JoinerHears(key, e, st, first);
    WaitingFromFollowed(key, e, st, first);
    BacklogIsAbove(f, st.Height(), key.SingleSourced(), st.snapshot.src);
    FilteredWholeIff(p, f, g, st.Height());
    var s := JoinerStream(key, e, st);
    assert s == [st.snapshot] + (Above(f, st.Height()) + g);
    assert s[1..] == Above(f, st.Height()) + g;
  }

  lemma WithinMeans(s: seq<Msg>, lo: nat, hi: nat, height: nat)
    requires Within(s, lo, hi)
    ensures hi <= height ==> NoneAbove(s, height)
    ensures lo > height ==> AllAbove(s, height)
  {
    forall m | m in s ensures lo <= m.ord.stamp <= hi {
      var i :| 0 <= i < |s| && s[i] == m;
    }
  }

  /** Nothing goes out below the height at which the joiner was attached. */
  lemma AfterIsAbove(key: SubKey, e: Entry, st: Story, first: nat)
    requires Plausible(key, e, st, first) && st.Height() < AtAnswer(key, e, st).arb.last
    ensures AllAbove(OutAfter(key, e, st), st.Height())
  {
    hide KeyStep, WellFormed, OneEpoch, LegalRun, Run, Forwarded, Plausible, Within, NoneAbove, AllAbove, Ascending;
    Piecewise(key, e, st, first);
    HeightsAscend(key, Attached(key, e, st), st.after);
    AnswerKeepsHeight(key, AtAnswer(key, e, st), st.joiner, st.snapshot);
    WithinMeans(OutAfter(key, e, st), Attached(key, e, st).arb.last,
                Run(key, Attached(key, e, st), st.after).arb.last, st.Height());
  }

  lemma BeforeIsBelow(key: SubKey, e: Entry, st: Story, first: nat)
    requires Plausible(key, e, st, first) && AtJoin(key, e, st).arb.last <= st.Height()
    ensures NoneAbove(OutBefore(key, e, st), st.Height())
  {
    Piecewise(key, e, st, first);
    assert WellFormed(key, e);
    hide KeyStep, WellFormed, OneEpoch, LegalRun, Run, Forwarded, Plausible, Within, NoneAbove, AllAbove, Ascending;
    HeightsAscend(key, e, st.before);
    WithinMeans(OutBefore(key, e, st), e.arb.last, AtJoin(key, e, st).arb.last, st.Height());
  }

  /** A late joiner is equivalent to a client that was always attached, for every run in which its
      snapshot is taken at or above the height the stream had when it joined and below the height
      the stream has when the snapshot arrives. */
  lemma LateJoinerIsEquivalent(key: SubKey, e: Entry, st: Story, first: nat)
    requires Plausible(key, e, st, first) && FollowedSource(key, e, st)
    requires AtJoin(key, e, st).arb.last <= st.Height() < AtAnswer(key, e, st).arb.last
    ensures JoinerStream(key, e, st)
         == [st.snapshot] + Above(Stream(key, e, st.Whole(), first), st.Height())
  {
    hide Plausible, Stream, FollowedSource, JoinerStream, NoneAbove, AllAbove;
    LateJoinerExactly(key, e, st, first);
    BeforeIsBelow(key, e, st, first);
    AfterIsAbove(key, e, st, first);
    var s := JoinerStream(key, e, st);
    assert s == [s[0]] + s[1..];
  }

  lemma AnswerKeepsHeight(key: SubKey, e: Entry, c: nat, snapshot: Msg)
    ensures KeyStep(key, e, Answer(c, snapshot)).arb.last == e.arb.last
  {
    hide Removed;
  }
}
