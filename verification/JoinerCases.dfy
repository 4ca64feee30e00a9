/** Late joiners that do not get what the first client got, each in a legal run from the start. */
module JoinerCases {
  import opened Wire
  import opened Books
  import opened Arbiter
  import opened Entries
  import opened Streams
  import opened Epochs
  import opened LateJoin
  import opened DiffStream
  import opened Flushes
  import opened L4Check
  import opened L4Stream
  import opened SafeAnswers

  lemma NoLossStays(key: SubKey, e: Entry, evs: seq<KeyEvent>)
    requires forall ev <- evs :: !ev.Lost?
    ensures LeaderStays(key, e, evs)
  {
    hide Run;
  }

  // ---------- `l4Book` ----------

  lemma BlockGoesOut(key: SubKey, e: Entry, m: Msg)
    requires key.L4Book? && m.ord.Block? && m.ord.stamp > e.arb.last
    requires e.pending == [] && e.arb.needsSnapshot == {}
    ensures var n := KeyStep(key, e, Arrive(m, 0));
            && n.pending == [] && n.subscribers == e.subscribers && n.upstream == e.upstream
            && n.arb.last == m.ord.stamp && n.arb.needsSnapshot == {}
    ensures Forwards(key, e, Arrive(m, 0)) == [m]
    ensures forall c :: Offers(key, e, Arrive(m, 0), c) == if c in e.subscribers then [m] else []
  {
    hide Bumped;
    assert HoldAll([], m) == [] && Kept([]) == [];
  }

  lemma AnsweredEmptyHanded(key: SubKey, e: Entry, c: nat, snapshot: Msg)
    requires key.L4Book? && e.pending == [Pending(c, [], 0)]
    ensures KeyStep(key, e, Answer(c, snapshot)) == e.(subscribers := e.subscribers + [c], pending := [])
    ensures forall d :: Offers(key, e, Answer(c, snapshot), d) == if d == c then [snapshot] else []
  {
  }

  /** A second client joins, is answered at once, and a frame arrives. */
  function JoinAnswerArrive(snapshot: Msg, m: Msg): seq<KeyEvent> {
    [Join(2)] + [Answer(2, snapshot), Arrive(m, 0)]
  }

  lemma JoinerSteps(key: SubKey, e: Entry, snapshot: Msg, m: Msg)
    requires key.L4Book? && e.upstream && e.pending == [] && e.subscribers == [1]
    requires e.arb.needsSnapshot == {} && snapshot.ord.Snapshot? && m.ord.Block? && m.ord.stamp > e.arb.last
    ensures var n := KeyStep(key, e, Join(2));
            var n' := KeyStep(key, n, Answer(2, snapshot));
            && IsParked(n.pending, 2) && Offers(key, e, Join(2), 1) == []
            && Offers(key, n, Answer(2, snapshot), 1) == [] && Offers(key, n, Answer(2, snapshot), 2) == [snapshot]
            && Offers(key, n', Arrive(m, 0), 1) == [m] && Offers(key, n', Arrive(m, 0), 2) == [m]
            && Legal(key, e, Join(2)) && Legal(key, n, Answer(2, snapshot)) && Legal(key, n', Arrive(m, 0))
  {
    hide UpdateEntry, Forwards, Removed, Backlog;
    var n := KeyStep(key, e, Join(2));
    JoinsBehind(key, e, 2);
    AnsweredEmptyHanded(key, n, 2, snapshot);
    hide AnswerFor, JoinEntry, Listed;
    BlockGoesOut(key, KeyStep(key, n, Answer(2, snapshot)), m);
  }

  lemma JoinerGets(key: SubKey, e: Entry, snapshot: Msg, m: Msg)
    requires key.L4Book? && e.upstream && e.pending == [] && e.subscribers == [1]
    requires e.arb.needsSnapshot == {} && snapshot.ord.Snapshot? && m.ord.Block? && m.ord.stamp > e.arb.last
    ensures LegalRun(key, e, JoinAnswerArrive(snapshot, m))
    ensures Stream(key, e, JoinAnswerArrive(snapshot, m), 1) == [m]
    ensures var n := KeyStep(key, e, Join(2));
            && IsParked(n.pending, 2)
            && Stream(key, n, [Answer(2, snapshot), Arrive(m, 0)], 2) == [snapshot, m]
  {
    hide KeyStep, Offers, Forwards, LegalRun, Run, Stream, Legal, IsParked;
    var n := KeyStep(key, e, Join(2));
    JoinerSteps(key, e, snapshot, m);
    TwoSteps(key, n, Answer(2, snapshot), Arrive(m, 0), 1);
    TwoSteps(key, n, Answer(2, snapshot), Arrive(m, 0), 2);
    FirstStep(key, e, Join(2), [Answer(2, snapshot), Arrive(m, 0)], 1);
  }

  /** The story of a client that is answered at once. */
  function AtOnce(before: seq<KeyEvent>, snapshot: Msg, m: Msg): Story {
    Story(before, 2, [], snapshot, [Arrive(m, 0)])
  }

  lemma AtOnceWhole(before: seq<KeyEvent>, snapshot: Msg, m: Msg)
    ensures AtOnce(before, snapshot, m).Whole() == before + JoinAnswerArrive(snapshot, m)
    ensures [] + [Answer(2, snapshot)] + [Arrive(m, 0)] == [Answer(2, snapshot), Arrive(m, 0)]
  {
    assert [] + [Answer(2, snapshot)] + [Arrive(m, 0)] == [Answer(2, snapshot), Arrive(m, 0)];
    assert AtOnce(before, snapshot, m).Whole() == before + JoinAnswerArrive(snapshot, m);
  }

  lemma AtOnceIsPlausible(key: SubKey, e: Entry, before: seq<KeyEvent>, snapshot: Msg, m: Msg)
    requires key.L4Book? && WellFormed(key, e) && 1 in e.subscribers
    requires LegalRun(key, e, before) && forall ev <- before :: !ev.Lost? && !ev.Leave?
    requires var n := Run(key, e, before);
             LegalRun(key, n, JoinAnswerArrive(snapshot, m)) && IsParked(KeyStep(key, n, Join(2)).pending, 2)
    ensures var st := AtOnce(before, snapshot, m);
            && st.Whole() == before + JoinAnswerArrive(snapshot, m)
            && Plausible(key, e, st, 1) && FollowedSource(key, e, st)
            && JoinerStream(key, e, st)
               == Stream(key, KeyStep(key, Run(key, e, before), Join(2)), [Answer(2, snapshot), Arrive(m, 0)], 2)
  {
    hide KeyStep, LegalRun, Stream, WellFormed, IsParked, LeaderStays, Run;
    var st := AtOnce(before, snapshot, m);
    AtOnceWhole(before, snapshot, m);
    LegalJoin(key, e, before, JoinAnswerArrive(snapshot, m));
    forall ev | ev in st.Whole() ensures !ev.Lost? && !ev.Leave? {
    }
    NoLossStays(key, e, st.Whole());
    NothingRuns(key, Joined(key, e, st), 2);
  }

  /** Answered by a source that is ahead, a joiner is sent what its snapshot already holds: the frame of
      the slower source that carries the stream. The checker sees its height go back. */
  lemma SnapshotAheadRepeats(key: SubKey, h: nat, p: Payload)
    requires key.L4Book? && h > 0
    ensures var e := Run(key, EMPTY, TwoOpen(h, p));
            var (snapshot, m) := (Msg(1, Snapshot(h + 5), p), Msg(0, Block(h + 1), p));
            var st := AtOnce([], snapshot, m);
            && LegalRun(key, EMPTY, TwoOpen(h, p) + st.Whole())
            && Plausible(key, e, st, 1) && FollowedSource(key, e, st)
            && JoinerStream(key, e, st) == [snapshot, m] && m.ord.stamp <= st.Height()
            && JoinerStream(key, e, st) != [snapshot] + Above(Stream(key, e, st.Whole(), 1), st.Height())
            && Judged(Items(JoinerStream(key, e, st))).violations != []
  {
    var e := Run(key, EMPTY, TwoOpen(h, p));
    var snapshot, m := Msg(1, Snapshot(h + 5), p), Msg(0, Block(h + 1), p);
    OpenedFromTheStart(key, h, p, 2);
    JoinerGets(key, e, snapshot, m);
    hide Run, LegalRun, Stream, Plausible, FollowedSource, JoinerStream, WellFormed, TwoOpen, KeyStep;
    NothingRuns(key, e, 1);
    AtOnceIsPlausible(key, e, [], snapshot, m);
    assert [] + JoinAnswerArrive(snapshot, m) == JoinAnswerArrive(snapshot, m);
    LegalJoin(key, EMPTY, TwoOpen(h, p), JoinAnswerArrive(snapshot, m));
    assert [m][..0] == [] && Above([m], h + 5) == [];
    StepsDown(snapshot, m);
  }

  lemma StepsDown(snapshot: Msg, m: Msg)
    requires !m.ord.Snapshot? && m.ord.stamp < snapshot.ord.stamp
    ensures Judged(Items([snapshot, m])).violations != []
  {
    FallViolates([snapshot, m], 1);
  }

  /** Answered by a source that is behind, a joiner misses a frame: it went out before the join and is not
      in the snapshot. */
  lemma SnapshotBehindLeavesAHole(key: SubKey, h: nat, p: Payload)
    requires key.L4Book? && h > 0
    ensures var e := Run(key, EMPTY, TwoOpen(h, p));
            var (snapshot, missed, m) := (Msg(1, Snapshot(h), p), Msg(0, Block(h + 1), p), Msg(0, Block(h + 2), p));
            var st := AtOnce([Arrive(missed, 0)], snapshot, m);
            && LegalRun(key, EMPTY, TwoOpen(h, p) + st.Whole())
            && Plausible(key, e, st, 1) && FollowedSource(key, e, st)
            && JoinerStream(key, e, st) == [snapshot, m]
            && Above(Stream(key, e, st.Whole(), 1), st.Height()) == [missed, m]
  {
    hide Run, LegalRun, Stream, Plausible, FollowedSource, JoinerStream, WellFormed, TwoOpen, KeyStep, Offers;
    hide Legal, IsParked, JoinAnswerArrive, Above, Forwards;
    var e := Run(key, EMPTY, TwoOpen(h, p));
    var snapshot, missed, m := Msg(1, Snapshot(h), p), Msg(0, Block(h + 1), p), Msg(0, Block(h + 2), p);
    OpenedFromTheStart(key, h, p, 2);
    OneBlockOut(key, e, missed);
    JoinerGets(key, Run(key, e, [Arrive(missed, 0)]), snapshot, m);
    AtOnceIsPlausible(key, e, [Arrive(missed, 0)], snapshot, m);
    StreamSplit(key, e, [Arrive(missed, 0)], JoinAnswerArrive(snapshot, m), 1);
    LegalJoin(key, e, [Arrive(missed, 0)], JoinAnswerArrive(snapshot, m));
    LegalJoin(key, EMPTY, TwoOpen(h, p), [Arrive(missed, 0)] + JoinAnswerArrive(snapshot, m));
    BothAbove(missed, m, h);
  }

  lemma OneBlockOut(key: SubKey, e: Entry, m: Msg)
    requires key.L4Book? && m.ord.Block? && m.ord.stamp > e.arb.last
    requires e.pending == [] && e.arb.needsSnapshot == {} && 1 in e.subscribers
    ensures var n := Run(key, e, [Arrive(m, 0)]);
            && n.pending == [] && n.subscribers == e.subscribers && n.upstream == e.upstream
            && n.arb.last == m.ord.stamp && n.arb.needsSnapshot == {}
    ensures LegalRun(key, e, [Arrive(m, 0)]) && Stream(key, e, [Arrive(m, 0)], 1) == [m]
  {
    assert Legal(key, e, Arrive(m, 0));
    hide KeyStep, Offers, Run, Stream, LegalRun, Legal, Forwards;
    BlockGoesOut(key, e, m);
    FirstStep(key, e, Arrive(m, 0), [], 1);
    NothingRuns(key, KeyStep(key, e, Arrive(m, 0)), 1);
    assert [Arrive(m, 0)] + [] == [Arrive(m, 0)];
  }

  lemma BothAbove(a: Msg, b: Msg, h: nat)
    requires a.ord.stamp > h && b.ord.stamp > h
    ensures Above([a] + [b], h) == [a, b]
  {
    assert [a] + [b] == [a, b];
    AboveAll([a, b], h);
  }

  // ---------- `l2Diff`: a flush lost for good ----------

  /** A node that adds one price with each of three flushes, the first two within one block. */
  function FlushLevels(n: nat): seq<Level> {
    if n == 0 then [] else if n == 1 then [Level("1", "1", 1)]
    else if n == 2 then [Level("1", "1", 1), Level("2", "1", 1)]
    else [Level("1", "1", 1), Level("2", "1", 1), Level("3", "1", 1)]
  }

  function FlushHeight(h: nat, n: nat): nat {
    if n == 0 then h else if n <= 2 then h + 1 else h + 2
  }

  function Flusher(h: nat): Node {
    Node((n: nat) => Sides(FlushLevels(n), []), (n: nat) => FlushHeight(h, n))
  }

  function Key(coin: string): SubKey {
    L2Diff(coin, None, None, None)
  }

  function FlushMsg(coin: string, h: nat, n: nat): Msg {
    Msg(0, if n == 0 then Snapshot(h) else Sticky(FlushHeight(h, n)),
        Payload(NodeFrame(Key(coin), Flusher(h), n), 0, 0))
  }

  /** The node's book after its first flush, as a snapshot. */
  function FlushSnapshot(coin: string, h: nat): Msg {
    var head := L2DiffHead(coin, h + 1, None, None, None);
    Msg(0, Snapshot(h + 1), Payload(L2DiffSnapshotFrame(head, FlushLevels(1), []), 0, 0))
  }

  function Flush(coin: string, h: nat, n: nat): KeyEvent {
    Arrive(FlushMsg(coin, h, n), 0)
  }

  /** A second client joins before the first flush, and is answered, after the last, with a snapshot taken
      after the first. */
  function FlushStory(coin: string, h: nat): Story {
    Story([Flush(coin, h, 0)], 2, [Flush(coin, h, 1), Flush(coin, h, 2), Flush(coin, h, 3)],
          FlushSnapshot(coin, h), [])
  }

  const ATTACHED := Entry(FRESH, true, false, [1], [])

  lemma FlushIsFrame(coin: string, h: nat, n: nat)
    requires n <= 3
    ensures IsFrame(Key(coin), Flusher(h), 0, n, FlushMsg(coin, h, n))
  {
    hide DiffSide;
  }

  lemma FlusherIsSteady(h: nat)
    requires h > 0
    ensures Steady(Flusher(h))
  {
  }

  lemma StickyIsHeld(key: SubKey, e: Entry, held: seq<Msg>, m: Msg)
    requires key.L2Diff? && m.ord.Sticky? && LedBy(e, m.src) && m.ord.stamp >= e.arb.last && m.payload.len == 0
    requires e.pending == [Pending(2, held, 0)] && e.subscribers == [1]
    ensures var n := KeyStep(key, e, Arrive(m, 0));
            && n.pending == [Pending(2, held + [m], 0)] && n.subscribers == [1] && n.upstream == e.upstream
            && n.arb.last == m.ord.stamp && n.arb.leader == e.arb.leader
    ensures Offers(key, e, Arrive(m, 0), 1) == [m]
  {
    assert HoldAll([Pending(2, held, 0)], m) == [Pending(2, held + [m], 0)];
    assert [Pending(2, held + [m], 0)][..0] == [] && Kept([]) == [];
  }

  /** The entry along the story. */
  ghost predicate Flushed(e: Entry, held: seq<Msg>, h: nat) {
    && e.pending == [Pending(2, held, 0)] && e.subscribers == [1] && e.upstream
    && LedBy(e, 0) && e.arb.last == h
  }

  lemma FlushOpens(key: SubKey, m: Msg)
    requires key.L2Diff? && m.ord.Snapshot? && m.ord.stamp > 0 && m.src == 0
    ensures var n := KeyStep(key, ATTACHED, Arrive(m, 0));
            && n.pending == [] && n.subscribers == [1] && n.upstream && LedBy(n, 0) && n.arb.last == m.ord.stamp
    ensures Offers(key, ATTACHED, Arrive(m, 0), 1) == [m]
    ensures WellFormed(key, ATTACHED)
  {
    hide Bumped;
    assert HoldAll([], m) == [] && Kept([]) == [];
    assert Listed(ATTACHED) == [1];
  }

  lemma FlushJoins(key: SubKey, e: Entry)
    requires key.L2Diff? && e.pending == [] && e.subscribers == [1] && e.upstream && LedBy(e, 0)
    ensures Flushed(KeyStep(key, e, Join(2)), [], e.arb.last)
    ensures Legal(key, e, Join(2)) && Offers(key, e, Join(2), 1) == []
  {
  }

  lemma FlushStep(coin: string, h: nat, e: Entry, held: seq<Msg>, n: nat)
    requires 1 <= n <= 3 && Flushed(e, held, FlushHeight(h, n - 1))
    ensures var key := Key(coin);
            && Flushed(KeyStep(key, e, Flush(coin, h, n)), held + [FlushMsg(coin, h, n)], FlushHeight(h, n))
            && Offers(key, e, Flush(coin, h, n), 1) == [FlushMsg(coin, h, n)]
            && Legal(key, e, Flush(coin, h, n))
  {
    hide NodeFrame, KeyStep, Offers;
    StickyIsHeld(Key(coin), e, held, FlushMsg(coin, h, n));
  }

  /** Three flushes, all of them held. */
  lemma FlushesWait(coin: string, h: nat, e: Entry)
    requires Flushed(e, [], h)
    ensures var (key, evs) := (Key(coin), FlushStory(coin, h).waiting);
            && LegalRun(key, e, evs)
            && Stream(key, e, evs, 1) == [FlushMsg(coin, h, 1), FlushMsg(coin, h, 2), FlushMsg(coin, h, 3)]
            && Flushed(Run(key, e, evs), Stream(key, e, evs, 1), h + 2)
  {
    hide KeyStep, Offers, Legal, LegalRun, Run, Stream, Forwards, Flushed, FlushMsg;
    var key := Key(coin);
    var a, b, d := Flush(coin, h, 1), Flush(coin, h, 2), Flush(coin, h, 3);
    var x, y, z := FlushMsg(coin, h, 1), FlushMsg(coin, h, 2), FlushMsg(coin, h, 3);
    assert [] + [x] == [x] && [x] + [y] == [x, y] && [x, y] + [z] == [x, y, z];
    FlushStep(coin, h, e, [], 1);
    var e1 := KeyStep(key, e, a);
    FlushStep(coin, h, e1, [x], 2);
    var e2 := KeyStep(key, e1, b);
    FlushStep(coin, h, e2, [x, y], 3);
    FirstStep(key, e, a, [b, d], 1);
    TwoSteps(key, e1, b, d, 1);
    assert [a] + [b, d] == [a, b, d] && [x] + ([y] + [z]) == [x, y, z];
  }

  lemma FlushAnswered(coin: string, h: nat, e: Entry, held: seq<Msg>)
    requires Flushed(e, held, h + 2)
    ensures IsParked(e.pending, 2) && Offers(Key(coin), e, Answer(2, FlushSnapshot(coin, h)), 1) == []
    ensures Legal(Key(coin), e, Answer(2, FlushSnapshot(coin, h)))
    ensures !Steals(Key(coin), e, Answer(2, FlushSnapshot(coin, h)))
  {
    hide Backlog;
  }

  /** The entry along the story: before the join, after it, and when the snapshot arrives. */
  lemma FlushStates(coin: string, h: nat)
    requires h > 0
    ensures var (key, st) := (Key(coin), FlushStory(coin, h));
            && AtJoin(key, ATTACHED, st) == KeyStep(key, ATTACHED, Flush(coin, h, 0))
            && Flushed(Joined(key, ATTACHED, st), [], h)
            && Flushed(AtAnswer(key, ATTACHED, st), Stream(key, Joined(key, ATTACHED, st), st.waiting, 1), h + 2)
            && AtJoin(key, ATTACHED, st).arb.last == h
  {
    hide KeyStep, Offers, LegalRun, Run, Stream, Forwards, Flushed, NodeFrame;
    var key, st := Key(coin), FlushStory(coin, h);
    FirstStep(key, ATTACHED, Flush(coin, h, 0), [], 1);
    NothingRuns(key, KeyStep(key, ATTACHED, Flush(coin, h, 0)), 1);
    assert [Flush(coin, h, 0)] + [] == [Flush(coin, h, 0)];
    FlushOpens(key, FlushMsg(coin, h, 0));
    FlushJoins(key, KeyStep(key, ATTACHED, Flush(coin, h, 0)));
    FlushesWait(coin, h, Joined(key, ATTACHED, st));
  }

  lemma FlushWhole(coin: string, h: nat)
    ensures var st := FlushStory(coin, h);
            && st.Whole() == [Flush(coin, h, 0)] + ([Join(2)] + (st.waiting + [Answer(2, st.snapshot)]))
            && st.Whole() == [Flush(coin, h, 0), Join(2), Flush(coin, h, 1), Flush(coin, h, 2), Flush(coin, h, 3),
                              Answer(2, st.snapshot)]
  {
    hide FlushMsg, FlushSnapshot;
    var st := FlushStory(coin, h);
    assert st.Whole() == [Flush(coin, h, 0)] + ([Join(2)] + (st.waiting + [Answer(2, st.snapshot)]));
  }

  lemma FlushEnds(coin: string, h: nat, e: Entry)
    requires Flushed(e, [], h)
    ensures var (key, evs) := (Key(coin), FlushStory(coin, h).waiting + [Answer(2, FlushSnapshot(coin, h))]);
            LegalRun(key, e, evs) && |Stream(key, e, evs, 1)| == 3
  {
    hide KeyStep, Offers, LegalRun, Run, Stream, Forwards, Flushed, FlushSnapshot, FlushMsg, Legal, IsParked, Steals;
    var key, waiting, answer := Key(coin), FlushStory(coin, h).waiting, Answer(2, FlushSnapshot(coin, h));
    FlushesWait(coin, h, e);
    var n := Run(key, e, waiting);
    FlushAnswered(coin, h, n, Stream(key, e, waiting, 1));
    FirstStep(key, n, answer, [], 1);
    NothingRuns(key, KeyStep(key, n, answer), 1);
    assert [answer] + [] == [answer];
    LegalJoin(key, e, waiting, [answer]);
    StreamSplit(key, e, waiting, [answer], 1);
  }

  lemma FlushBegins(coin: string, h: nat)
    requires h > 0
    ensures var (key, a) := (Key(coin), Flush(coin, h, 0));
            var e := KeyStep(key, ATTACHED, a);
            && KeyStep(key, EMPTY, Join(1)) == ATTACHED && Legal(key, EMPTY, Join(1)) && WellFormed(key, ATTACHED)
            && Legal(key, ATTACHED, a) && |Offers(key, ATTACHED, a, 1)| == 1
            && Legal(key, e, Join(2)) && Offers(key, e, Join(2), 1) == []
            && Flushed(KeyStep(key, e, Join(2)), [], h)
  {
    assert KeyStep(Key(coin), EMPTY, Join(1)) == ATTACHED && Legal(Key(coin), EMPTY, Join(1)) by {
      assert Listed(EMPTY) == [];
    }
    assert Legal(Key(coin), ATTACHED, Flush(coin, h, 0));
    hide KeyStep, Offers, Legal, WellFormed, Flushed, NodeFrame;
    FlushOpens(Key(coin), FlushMsg(coin, h, 0));
    FlushJoins(Key(coin), KeyStep(Key(coin), ATTACHED, Flush(coin, h, 0)));
  }

  /** The whole story is legal, from an empty entry on, and shows the first client every frame. */
  lemma FlushStoryRuns(coin: string, h: nat)
    requires h > 0
    ensures var (key, st) := (Key(coin), FlushStory(coin, h));
            && KeyStep(key, EMPTY, Join(1)) == ATTACHED && LegalRun(key, EMPTY, [Join(1)] + st.Whole())
            && WellFormed(key, ATTACHED) && LegalRun(key, ATTACHED, st.Whole())
            && |Stream(key, ATTACHED, st.Whole(), 1)| == 4
  {
    hide KeyStep, Offers, LegalRun, Run, Stream, Forwards, Flushed, Legal, WellFormed, FlushMsg, FlushSnapshot;
    var key, st := Key(coin), FlushStory(coin, h);
    var a, rest := Flush(coin, h, 0), st.waiting + [Answer(2, st.snapshot)];
    FlushBegins(coin, h);
    var e := KeyStep(key, ATTACHED, a);
    FlushEnds(coin, h, KeyStep(key, e, Join(2)));
    FirstStep(key, e, Join(2), rest, 1);
    FirstStep(key, ATTACHED, a, [Join(2)] + rest, 1);
    FlushWhole(coin, h);
    FirstStep(key, EMPTY, Join(1), st.Whole(), 1);
  }

  lemma FlushIsPlausible(coin: string, h: nat)
    requires h > 0
    ensures Plausible(Key(coin), ATTACHED, FlushStory(coin, h), 1)
  {
    hide KeyStep, LegalRun, Run, Stream, NodeFrame, WellFormed, LeaderStays, FlushMsg, FlushSnapshot;
    var key, st := Key(coin), FlushStory(coin, h);
    FlushStoryRuns(coin, h);
    FlushStates(coin, h);
    FlushWhole(coin, h);
    NoLossStays(key, ATTACHED, st.Whole());
  }

  lemma NobodyElseAnswers(key: SubKey, e: Entry, evs: seq<KeyEvent>)
    requires forall ev <- evs :: !ev.Answer?
    ensures NobodySteals(key, e, evs)
  {
    hide Run;
  }

  lemma FlushFollows(coin: string, h: nat)
    requires h > 0
    ensures var (key, st) := (Key(coin), FlushStory(coin, h));
            NobodySteals(key, ATTACHED, st.Whole()) && FollowedSource(key, ATTACHED, st)
  {
    hide KeyStep, Run, Stream, NodeFrame, FlushMsg, Steals, AtAnswer, Joined;
    var key, st := Key(coin), FlushStory(coin, h);
    FlushStates(coin, h);
    FlushAnswered(coin, h, AtAnswer(key, ATTACHED, st), Stream(key, Joined(key, ATTACHED, st), st.waiting, 1));
    NobodyElseAnswers(key, Joined(key, ATTACHED, st), st.waiting);
    AnswerSplits(key, ATTACHED, st);
    FlushWhole(coin, h);
    var whole := st.Whole();
    assert whole[..5] == UpToAnswer(st);
    forall i | 0 <= i < |whole| ensures !Steals(key, Run(key, ATTACHED, whole[..i]), whole[i]) {
      if i < 5 {
        OnlyAnswersSteal(key, Run(key, ATTACHED, whole[..i]), whole[i]);
      }
    }
  }

  lemma OnlyAnswersSteal(key: SubKey, e: Entry, ev: KeyEvent)
    ensures Steals(key, e, ev) ==> ev.Answer?
  {
  }

  lemma FlushIsScripted(coin: string, h: nat)
    ensures Scripted(Key(coin), (s: nat) => Flusher(h), FlushStory(coin, h).Whole())
  {
    hide IsFrame, Flusher, FlushSnapshot, FlushMsg;
    var evs := FlushStory(coin, h).Whole();
    FlushWhole(coin, h);
    FlushesSent(coin, h);
    forall i | 0 <= i < |evs| && evs[i].Arrive?
      ensures evs[i].msg.src == 0 && IsFrame(Key(coin), Flusher(h), 0, SentBy(evs[..i], 0), evs[i].msg)
    {
      var n := SentBy(evs[..i], 0);
      FlushIsFrame(coin, h, n);
      FromTheFlusher(coin, h, n);
    }
  }

  lemma FromTheFlusher(coin: string, h: nat, n: nat)
    ensures FlushMsg(coin, h, n).src == 0
  {
  }

  lemma FlushesSent(coin: string, h: nat)
    ensures var evs := FlushStory(coin, h).Whole();
            |evs| == 6 && SentBy(evs[..0], 0) == 0 && SentBy(evs[..2], 0) == 1
            && SentBy(evs[..3], 0) == 2 && SentBy(evs[..4], 0) == 3
  {
    hide NodeFrame;
    FlushWhole(coin, h);
    var evs := FlushStory(coin, h).Whole();
    assert evs[..4][..3] == evs[..3] && evs[..3][..2] == evs[..2] && evs[..2][..1] == evs[..1] && evs[..1][..0] == [];
  }

  lemma FlushIsTold(coin: string, h: nat)
    requires h > 0
    ensures Told(Key(coin), (s: nat) => Flusher(h), ATTACHED, FlushStory(coin, h), 1, 1)
  {
    hide KeyStep, Run, Stream, Plausible, NobodySteals, FollowedSource, Scripted, Steady, NodeFrame, FlushMsg;
    FlushIsPlausible(coin, h);
    FlushFollows(coin, h);
    FlushIsScripted(coin, h);
    FlusherIsSteady(h);
    FlushStates(coin, h);
  }

  lemma NotMadeGood(h: nat)
    ensures LastOfBlock(Flusher(h), 1, 4) == 2
    ensures !MadeGood(Bids(Flusher(h)), 1, 2, 3)
  {
    var levels := Bids(Flusher(h));
    assert forall n :: levels(n) == FlushLevels(n);
    LevelsAt();
    assert !Touched(levels, 2, 3, "2");
    assert !Agree(ByPx(levels(1)), ByPx(levels(2)), "2");
  }

  lemma LevelsAt()
    ensures "2" !in ByPx(FlushLevels(1))
    ensures "2" in ByPx(FlushLevels(2)) && ByPx(FlushLevels(2))["2"] == Qty("1", 1)
    ensures "2" in ByPx(FlushLevels(3)) && ByPx(FlushLevels(3))["2"] == Qty("1", 1)
  {
    var a, b, d := FlushLevels(1), FlushLevels(2), FlushLevels(3);
    assert a[..0] == [] && b[..1] == a && d[..2] == b;
  }

  /** Flushes share heights, and the backlog is cut by height alone: in a legal run from the start, a
      snapshot taken between two flushes of one block loses the second, and the joiner's book stays
      wrong where that flush alone set it. */
  lemma MidBlockSnapshotSkipsAFlush(coin: string, h: nat)
    requires h > 0
    ensures var (key, st) := (Key(coin), FlushStory(coin, h));
            && LegalRun(key, EMPTY, [Join(1)] + st.Whole()) && KeyStep(key, EMPTY, Join(1)) == ATTACHED
            && Told(key, (s: nat) => Flusher(h), ATTACHED, st, 1, 1)
            && |Stream(key, ATTACHED, st.Whole(), 1)| == 4
            && JoinerStream(key, ATTACHED, st) == [st.snapshot] + Stream(key, ATTACHED, st.Whole(), 1)[3..]
            && ClientBook(JoinerStream(key, ATTACHED, st)) != ClientBook(Stream(key, ATTACHED, st.Whole(), 1))
  {
    hide KeyStep, Run, Stream, Told, JoinerStream, ClientBook, Frames, MadeGood, LastOfBlock, NodeFrame, FlushMsg;
    hide LegalRun, FlushSnapshot;
    var key, st := Key(coin), FlushStory(coin, h);
    var nodes := (s: nat) => Flusher(h);
    FlushIsTold(coin, h);
    FlushStoryRuns(coin, h);
    NotMadeGood(h);
    SnapshotIsTheFlushers(coin, h);
    JoinerMissesItsBlock(key, nodes, ATTACHED, st, 1, 1);
    LateJoinerRebuildsIff(key, nodes, ATTACHED, st, 1, 1);
  }

  lemma SnapshotIsTheFlushers(coin: string, h: nat)
    ensures FlushStory(coin, h).snapshot.src == 0
  {
  }
}
