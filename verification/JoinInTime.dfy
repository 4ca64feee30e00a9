/** Exactly when a late joiner can be answered: judged by where the entry stands when the snapshot arrives,
for everything that may come after. */
module JoinInTime {
  import opened Wire
  import opened Arbiter
  import opened Entries
  import opened Streams
  import opened Epochs
  import opened LateJoin
  import opened L4Stream
  import opened SafeAnswers

  /** Nothing the snapshot holds is sent to the joiner behind it. */
  ghost predicate RepeatsNothing(key: SubKey, e: Entry, st: Story) {
    var s := JoinerStream(key, e, st);
    s != [] && s[0] == st.snapshot && AllAbove(s[1..], st.Height())
  }

  /** Behind its snapshot the joiner gets what the first client gets above it. */
  ghost predicate MissesNothing(key: SubKey, e: Entry, st: Story, first: nat) {
    JoinerStream(key, e, st) == [st.snapshot] + Above(Stream(key, e, st.Whole(), first), st.Height())
  }

  /** However the story goes on, with the leader and both clients staying. */
  ghost predicate NeverRepeats(key: SubKey, e: Entry, st: Story, first: nat) {
    forall after :: Plausible(key, e, st.(after := after), first) ==> RepeatsNothing(key, e, st.(after := after))
  }

  ghost predicate AlwaysEquivalent(key: SubKey, e: Entry, st: Story, first: nat) {
    forall after ::
      Plausible(key, e, st.(after := after), first) ==> MissesNothing(key, e, st.(after := after), first)
  }

  lemma RepeatsNothingMeans(key: SubKey, e: Entry, st: Story, first: nat)
    requires Plausible(key, e, st, first) && FollowedSource(key, e, st)
    ensures RepeatsNothing(key, e, st) <==> AllAbove(OutAfter(key, e, st), st.Height())
  {
    hide Plausible, FollowedSource, JoinerStream, Forwarded, Backlog;
    JoinerHears(key, e, st, first);
    var g := OutAfter(key, e, st);
    var b := Backlog(OutWaiting(key, e, st), st.Height(), key.SingleSourced(), st.snapshot.src);
    BacklogAboveHeight(OutWaiting(key, e, st), st.Height(), key.SingleSourced(), st.snapshot.src);
    assert [st.snapshot] + b + g == [st.snapshot] + (b + g);
    assert ([st.snapshot] + (b + g))[1..] == b + g;
    forall m | m in g ensures m in b + g {
    }
  }

  lemma MissesNothingMeans(key: SubKey, e: Entry, st: Story, first: nat)
    requires Plausible(key, e, st, first) && FollowedSource(key, e, st)
    ensures MissesNothing(key, e, st, first)
       <==> NoneAbove(OutBefore(key, e, st), st.Height()) && AllAbove(OutAfter(key, e, st), st.Height())
  {
    hide Plausible, FollowedSource, JoinerStream, Forwarded, Stream, NoneAbove, AllAbove, Above;
    LateJoinerExactly(key, e, st, first);
    var s, rest := JoinerStream(key, e, st), Above(Stream(key, e, st.Whole(), first), st.Height());
    assert s == [st.snapshot] + s[1..];
    assert ([st.snapshot] + rest)[1..] == rest;
  }

  // ---------- How a story goes on ----------

  lemma SameSoFar(key: SubKey, e: Entry, st: Story, after: seq<KeyEvent>)
    ensures var st' := st.(after := after);
            && AtAnswer(key, e, st') == AtAnswer(key, e, st) && Attached(key, e, st') == Attached(key, e, st)
            && OutBefore(key, e, st') == OutBefore(key, e, st)
            && (FollowedSource(key, e, st') <==> FollowedSource(key, e, st))
  {
    hide KeyStep, Run, Forwarded, NobodySteals;
  }

  lemma RunToAttached(key: SubKey, e: Entry, st: Story)
    requires st.after == []
    ensures Run(key, e, st.Whole()) == Attached(key, e, st)
  {
    hide KeyStep, Run;
    var j, an := [Join(st.joiner)], [Answer(st.joiner, st.snapshot)];
    assert st.Whole() == st.before + (j + (st.waiting + an));
    RunSplit(key, e, st.before, j + (st.waiting + an));
    RunSplit(key, AtJoin(key, e, st), j, st.waiting + an);
    RunSplit(key, Joined(key, e, st), st.waiting, an);
    RunOne(key, AtJoin(key, e, st), j[0], 0);
    RunOne(key, AtAnswer(key, e, st), an[0], 0);
  }

  lemma ArrivalsDisturbNobody(key: SubKey, e: Entry, evs: seq<KeyEvent>, c: nat)
    requires forall ev <- evs :: ev.Arrive?
    ensures LeaderStays(key, e, evs) && Undisturbed(key, e, evs, c)
  {
    hide Run;
    forall i | 0 <= i < |evs| ensures evs[i].Arrive? {
      assert evs[i] in evs;
    }
  }

  lemma LeaderStaysOn(key: SubKey, e: Entry, a: seq<KeyEvent>, b: seq<KeyEvent>)
    requires LeaderStays(key, e, a) && LeaderStays(key, Run(key, e, a), b)
    ensures LeaderStays(key, e, a + b)
  {
    hide Frees, Run;
    forall i | 0 <= i < |a + b| ensures !Frees(key, Run(key, e, (a + b)[..i]), (a + b)[i]) {
      if i < |a| {
        assert (a + b)[..i] == a[..i];
      } else {
        assert (a + b)[..i] == a + b[..i - |a|];
        RunSplit(key, e, a, b[..i - |a|]);
      }
    }
  }

  lemma GoesOn(key: SubKey, e: Entry, st: Story, first: nat, after: seq<KeyEvent>)
    requires st.after == [] && Plausible(key, e, st, first)
    requires LegalRun(key, Attached(key, e, st), after) && forall ev <- after :: ev.Arrive?
    ensures Plausible(key, e, st.(after := after), first)
  {
    hide KeyStep, WellFormed, LegalRun, LeaderStays, IsParked, Run, Unconcerned;
    var st' := st.(after := after);
    assert st'.Whole() == st.Whole() + after;
    RunToAttached(key, e, st);
    SameSoFar(key, e, st, after);
    LegalJoin(key, e, st.Whole(), after);
    ArrivalsDisturbNobody(key, Attached(key, e, st), after, first);
    LeaderStaysOn(key, e, st.Whole(), after);
  }

  lemma StillAttached(key: SubKey, e: Entry, st: Story, first: nat)
    requires Plausible(key, e, st, first)
    ensures var n := Attached(key, e, st);
            && WellFormed(key, n) && st.joiner in n.subscribers
            && n.arb.last == AtAnswer(key, e, st).arb.last
            && (key.L4Book? ==> n.arb == AtAnswer(key, e, st).arb)
  {
    Piecewise(key, e, st, first);
    hide KeyStep, WellFormed, OneEpoch, LegalRun, LeaderStays, Run, IsParked;
    AnswerAttaches(key, AtAnswer(key, e, st), st.joiner, st.snapshot);
    AnswerKeepsHeight(key, AtAnswer(key, e, st), st.joiner, st.snapshot);
    if key.L4Book? {
      AnswerKeepsArb(key, AtAnswer(key, e, st), st.joiner, st.snapshot);
    }
  }

  // ---------- A snapshot not below the entry ----------

  /** The source being followed sends another frame of its height. */
  lemma FlushGoesOut(key: SubKey, e: Entry, m: Msg)
    requires key.L2Diff? && LedBy(e, m.src) && m.ord == Sticky(e.arb.last)
    ensures LegalRun(key, e, [Arrive(m, 0)]) && Forwarded(key, e, [Arrive(m, 0)]) == [m]
  {
    assert Forwards(key, e, Arrive(m, 0)) == [m];
    hide Forwards, KeyStep;
    RunOne(key, e, Arrive(m, 0), 0);
    assert [Arrive(m, 0)][..0] == [];
  }

  lemma LedOnceAnswered(key: SubKey, e: Entry, c: nat, snapshot: Msg)
    requires key.SingleSourced() && LedBy(e, snapshot.src)
    ensures LedBy(KeyStep(key, e, Answer(c, snapshot)), snapshot.src)
  {
    hide Removed, Position;
  }

  /** A frame at the height of the entry can still go out, which is not above the snapshot. */
  lemma LateAnswerRepeats(key: SubKey, e: Entry, st: Story, first: nat, t: nat) returns (after: seq<KeyEvent>)
    requires st.after == [] && Plausible(key, e, st, first) && FollowedSource(key, e, st)
    requires st.Height() >= AtAnswer(key, e, st).arb.last
    requires var arb := AtAnswer(key, e, st).arb;
             key.L4Book? ==> SourceBit(t) !in arb.needsSnapshot && arb.sent < U32 - 1
    ensures Plausible(key, e, st.(after := after), first)
    ensures !AllAbove(OutAfter(key, e, st.(after := after)), st.Height())
  {
    assert key.IsIncremental();
    hide KeyStep, WellFormed, LegalRun, Run, Plausible, IsParked, Stream, Forwarded, SourceBit, LedBy, NobodySteals;
    hide Undisturbed, LeaderStays, FairFrom;
    var n := Attached(key, e, st);
    StillAttached(key, e, st, first);
    var m;
    if key.L4Book? {
      m := Msg(t, Block(n.arb.last), st.snapshot.payload);
      after := RaceGetsThrough(key, n, st.joiner, m, [st.snapshot]);
      ArrivalsDisturbNobody(key, n, after, st.joiner);
      AttachedHearsEverything(key, n, after, st.joiner);
    } else {
      LedOnceAnswered(key, AtAnswer(key, e, st), st.joiner, st.snapshot);
      m := Msg(st.snapshot.src, Sticky(n.arb.last), st.snapshot.payload);
      after := [Arrive(m, 0)];
      FlushGoesOut(key, n, m);
    }
    GoesOn(key, e, st, first, after);
    SameSoFar(key, e, st, after);
    assert m in Forwarded(key, n, after);
  }

  /** An answer repeats nothing, whatever comes after it, exactly when its snapshot is below the height the
      entry stands at when it arrives. On `l4Book` some source must not be written off, and the open
      block's counter not be at its 32-bit end, for anything to go out at all. */
  lemma AnswerRepeatsNothingIff(key: SubKey, e: Entry, st: Story, first: nat, t: nat)
    requires st.after == [] && Plausible(key, e, st, first) && FollowedSource(key, e, st)
    requires var arb := AtAnswer(key, e, st).arb;
             key.L4Book? ==> SourceBit(t) !in arb.needsSnapshot && arb.sent < U32 - 1
    ensures NeverRepeats(key, e, st, first) <==> st.Height() < AtAnswer(key, e, st).arb.last
  {
    hide Plausible, FollowedSource, RepeatsNothing, AllAbove, SourceBit, AtAnswer, OutAfter;
    if st.Height() < AtAnswer(key, e, st).arb.last {
      forall after | Plausible(key, e, st.(after := after), first)
        ensures RepeatsNothing(key, e, st.(after := after))
      {
        SameSoFar(key, e, st, after);
        AfterIsAbove(key, e, st.(after := after), first);
        RepeatsNothingMeans(key, e, st.(after := after), first);
      }
    } else {
      var after := LateAnswerRepeats(key, e, st, first, t);
      SameSoFar(key, e, st, after);
      RepeatsNothingMeans(key, e, st.(after := after), first);
    }
  }

  // ---------- What went out before ----------

  lemma QuietKeepsHeight(key: SubKey, e: Entry, ev: KeyEvent)
    requires Forwards(key, e, ev) == [] && !Frees(key, e, ev) && !Drops(e, ev)
    ensures KeyStep(key, e, ev).arb.last == e.arb.last
  {
    hide Arbitrate, Kept, HeldFor, Without, WithoutPending, Removed;
    if ev.Arrive? {
      RulingsAreCoherent(key, e.arb, ev.msg.src, ev.msg.ord, ev.now);
    }
  }

  lemma LastOutStep(key: SubKey, e: Entry, ev: KeyEvent, out: seq<Msg>)
    requires WellFormed(key, e) && Legal(key, e, ev) && !Frees(key, e, ev) && !Drops(e, ev)
    requires out != [] ==> out[|out| - 1].ord.stamp == e.arb.last
    ensures var after := out + Forwards(key, e, ev);
            after != [] ==> after[|after| - 1].ord.stamp == KeyStep(key, e, ev).arb.last
  {
    hide KeyStep, Forwards, WellFormed, Legal, Frees, Drops;
    AtMostOne(key, e, ev);
    if Forwards(key, e, ev) == [] {
      QuietKeepsHeight(key, e, ev);
      assert out + [] == out;
    } else {
      StepHeights(key, e, ev);
    }
  }

  /** Within an epoch the height is that of the last frame to go out, if any did. */
  lemma {:induction false} LastOutIsTheHeight(key: SubKey, e: Entry, evs: seq<KeyEvent>)
    requires WellFormed(key, e) && LegalRun(key, e, evs) && OneEpoch(key, e, evs)
    ensures var out := Forwarded(key, e, evs);
            out != [] ==> out[|out| - 1].ord.stamp == Run(key, e, evs).arb.last
  {
    hide KeyStep, Forwards, WellFormed, Legal, Frees, Drops;
    if evs != [] {
      var k := |evs| - 1;
      var n := Run(key, e, evs[..k]);
      LegalPrefix(key, e, evs, k);
      EpochPrefix(key, e, evs, k);
      LastOutIsTheHeight(key, e, evs[..k]);
      RunKeepsWellFormed(key, e, evs[..k]);
      LastOutStep(key, n, evs[k], Forwarded(key, e, evs[..k]));
    }
  }

  lemma NothingAboveBeforeIff(key: SubKey, e: Entry, st: Story, first: nat)
    requires Plausible(key, e, st, first)
    ensures NoneAbove(OutBefore(key, e, st), st.Height())
       <==> OutBefore(key, e, st) == [] || AtJoin(key, e, st).arb.last <= st.Height()
  {
    Piecewise(key, e, st, first);
    assert WellFormed(key, e);
    hide KeyStep, WellFormed, OneEpoch, LegalRun, Run, Forwarded, Plausible;
    LastOutIsTheHeight(key, e, st.before);
    var out := OutBefore(key, e, st);
    if AtJoin(key, e, st).arb.last <= st.Height() {
      BeforeIsBelow(key, e, st, first);
    } else if out != [] {
      assert out[|out| - 1] in out;
    }
  }

  /** A late joiner stays equivalent to the client that was always attached, whatever comes after its
      answer, exactly when its snapshot is no older than what went out before it joined and below the
      height the entry stands at when the snapshot arrives. */
  lemma LateJoinerIsEquivalentIff(key: SubKey, e: Entry, st: Story, first: nat, t: nat)
    requires st.after == [] && Plausible(key, e, st, first) && FollowedSource(key, e, st)
    requires var arb := AtAnswer(key, e, st).arb;
             key.L4Book? ==> SourceBit(t) !in arb.needsSnapshot && arb.sent < U32 - 1
    ensures AlwaysEquivalent(key, e, st, first)
       <==> && (OutBefore(key, e, st) == [] || AtJoin(key, e, st).arb.last <= st.Height())
            && st.Height() < AtAnswer(key, e, st).arb.last
  {
    hide Plausible, FollowedSource, MissesNothing, RepeatsNothing, AllAbove, NoneAbove, SourceBit;
    hide AtAnswer, AtJoin, OutBefore, OutAfter;
    NothingAboveBeforeIff(key, e, st, first);
    AnswerRepeatsNothingIff(key, e, st, first, t);
    forall after | Plausible(key, e, st.(after := after), first)
      ensures MissesNothing(key, e, st.(after := after), first)
         <==> NoneAbove(OutBefore(key, e, st), st.Height()) && RepeatsNothing(key, e, st.(after := after))
    {
      SameSoFar(key, e, st, after);
      MissesNothingMeans(key, e, st.(after := after), first);
      RepeatsNothingMeans(key, e, st.(after := after), first);
    }
    assert st.(after := []) == st;
  }
}
