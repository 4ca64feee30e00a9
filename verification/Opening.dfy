/** How an incremental stream opens: a client must get a snapshot before any increment. */
module Opening {
  import opened Wire
  import opened Arbiter
  import opened Entries
  import opened Streams
  import opened Epochs
  import opened L4Check
  import opened L4Stream

  /** The sources heard from since the entry was last dropped. */
  function Heard(key: SubKey, e: Entry, evs: seq<KeyEvent>): set<nat> {
    if evs == [] then {}
    else
      var k := |evs| - 1;
      HeardNext(Heard(key, e, evs[..k]), Run(key, e, evs[..k]), evs[k])
  }

  function HeardNext(heard: set<nat>, e: Entry, ev: KeyEvent): set<nat> {
    if Drops(e, ev) then {} else if ev.Arrive? then heard + {ev.msg.src} else heard
  }

  /** What the upstream owes an entry: nothing arrives on a key that is not subscribed to, and every
      source opens a new subscription with a snapshot. */
  predicate Owed(e: Entry, heard: set<nat>, ev: KeyEvent) {
    ev.Arrive? ==> e.upstream && (ev.msg.src in heard || (ev.msg.ord.Snapshot? && ev.msg.ord.stamp > 0))
  }

  ghost predicate Prompt(key: SubKey, e: Entry, evs: seq<KeyEvent>) {
    forall i :: 0 <= i < |evs| ==> Owed(Run(key, e, evs[..i]), Heard(key, e, evs[..i]), evs[i])
  }

  /** A stream nobody has started: no height, and nobody heard from, or, once a single source has been
      chosen to carry it, not that one. */
  predicate Unstarted(key: SubKey, e: Entry, heard: set<nat>) {
    && e.arb.last == 0
    && if key.SingleSourced() && e.arb.leader.Some? then e.arb.leader.value !in heard else heard == {}
  }

  ghost predicate OpeningInv(key: SubKey, e: Entry, heard: set<nat>, s: seq<Msg>, c: nat) {
    && Opens(s)
    && (!e.upstream ==> e == EMPTY && heard == {})
    && (c in e.subscribers && s == [] ==> Unstarted(key, e, heard))
  }

  lemma OpensLater(s: seq<Msg>, t: seq<Msg>)
    requires Opens(s) && (s == [] ==> Opens(t))
    ensures Opens(s + t) && (s + t == [] ==> s == [] && t == [])
  {
    if s == [] {
      assert s + t == t;
    }
  }

  /** An arrival on an unstarted stream starts it with a snapshot or leaves it unstarted. */
  lemma ArrivalOpens(key: SubKey, e: Entry, heard: set<nat>, m: Msg, now: nat)
    requires key.IsIncremental() && Routable(key, m.ord)
    requires Unstarted(key, e, heard) && Owed(e, heard, Arrive(m, now))
    ensures Ruled(key, e, m, now).deliver ==> m.ord.Snapshot?
    ensures !Ruled(key, e, m, now).deliver ==> Unstarted(key, UpdateEntry(key, e, m, now), heard + {m.src})
  {
    hide Opened, Kept, HeldFor;
  }

  lemma ArriveKeepsOpening(key: SubKey, e: Entry, heard: set<nat>, s: seq<Msg>, m: Msg, now: nat, c: nat)
    requires key.IsIncremental() && OpeningInv(key, e, heard, s, c)
    requires Routable(key, m.ord) && Owed(e, heard, Arrive(m, now))
    ensures OpeningInv(key, UpdateEntry(key, e, m, now), heard + {m.src}, s + Offers(key, e, Arrive(m, now), c), c)
  {
    hide Ruled, Kept, HeldFor, Unstarted;
    var offered := Offers(key, e, Arrive(m, now), c);
    if c in e.subscribers && s == [] {
      ArrivalOpens(key, e, heard, m, now);
    }
    OpensLater(s, offered);
  }

  lemma LeaveKeepsOpening(key: SubKey, e: Entry, heard: set<nat>, s: seq<Msg>, d: nat, c: nat)
    requires OpeningInv(key, e, heard, s, c)
    ensures OpeningInv(key, LeaveEntry(e, d), HeardNext(heard, e, Leave(d)), s, c)
  {
    hide Opens, Unstarted;
    WithoutExactly(e.subscribers, d);
    var n := Unlisted(e, d);
    assert c in n.subscribers ==> c in multiset(n.subscribers);
    assert Unlisted(EMPTY, d) == EMPTY by { assert Without([], d) == [] && WithoutPending([], d) == []; }
    assert Unstarted(key, e, heard) ==> Unstarted(key, n, heard) by { SameOrderUnstarted(key, e, n, heard); }
  }

  lemma SameOrderUnstarted(key: SubKey, e: Entry, n: Entry, heard: set<nat>)
    requires e.arb == n.arb
    ensures Unstarted(key, e, heard) <==> Unstarted(key, n, heard)
  {
  }

  lemma AnswerKeepsOpening(key: SubKey, e: Entry, heard: set<nat>, s: seq<Msg>, d: nat, snapshot: Msg, c: nat)
    requires OpeningInv(key, e, heard, s, c) && snapshot.ord.Snapshot? && !Steals(key, e, Answer(d, snapshot))
    ensures OpeningInv(key, AnswerEntry(key, e, d, snapshot), heard, s + Offers(key, e, Answer(d, snapshot), c), c)
  {
    hide Backlog, Removed;
    assert Position([], d) == 0;
    OpensLater(s, Offers(key, e, Answer(d, snapshot), c));
  }

  lemma OtherwiseKeepsOpening(key: SubKey, e: Entry, heard: set<nat>, s: seq<Msg>, ev: KeyEvent, c: nat)
    requires key.IsIncremental() && OpeningInv(key, e, heard, s, c)
    requires ev.Join? || ev.Pin? || ev.Lost? || ev.GiveUp?
    ensures OpeningInv(key, KeyStep(key, e, ev), heard, s, c)
  {
    hide Opens, IsParked, Parking, Removed, Position;
  }

  lemma StepKeepsOpening(key: SubKey, e: Entry, heard: set<nat>, s: seq<Msg>, ev: KeyEvent, c: nat)
    requires key.IsIncremental() && OpeningInv(key, e, heard, s, c)
    requires Legal(key, e, ev) && Owed(e, heard, ev) && !Steals(key, e, ev)
    ensures OpeningInv(key, KeyStep(key, e, ev), HeardNext(heard, e, ev), s + Offers(key, e, ev, c), c)
  {
    hide OpeningInv, Owed, Steals, Listed, LeaveEntry, UpdateEntry, AnswerEntry, JoinEntry, AnswerFor, Forwards;
    assert s + [] == s;
    match ev
    case Arrive(m, now) => ArriveKeepsOpening(key, e, heard, s, m, now, c);
    case Leave(d) => LeaveKeepsOpening(key, e, heard, s, d, c);
    case Answer(d, snapshot) => AnswerKeepsOpening(key, e, heard, s, d, snapshot, c);
    case _ => OtherwiseKeepsOpening(key, e, heard, s, ev, c);
  }

  lemma {:induction false} RunKeepsOpening(key: SubKey, e: Entry, evs: seq<KeyEvent>, c: nat)
    requires key.IsIncremental() && LegalRun(key, e, evs)
    requires Prompt(key, e, evs) && NobodySteals(key, e, evs)
    requires OpeningInv(key, e, {}, [], c)
    ensures OpeningInv(key, Run(key, e, evs), Heard(key, e, evs), Stream(key, e, evs, c), c)
  {
    hide KeyStep, Offers, Legal, Owed, Steals, HeardNext, Unstarted;
    if evs != [] {
      var k := |evs| - 1;
      LegalPrefix(key, e, evs, k);
      forall i | 0 <= i < k ensures evs[..k][..i] == evs[..i] && evs[..k][i] == evs[i] {
      }
      RunKeepsOpening(key, e, evs[..k], c);
      StepKeepsOpening(key, Run(key, e, evs[..k]), Heard(key, e, evs[..k]), Stream(key, e, evs[..k], c), evs[k], c);
    }
  }

  /** Every client of an incremental channel is sent a snapshot first, provided the upstream pays what it
      owes and no answer takes the stream from the source leading it: whichever way the client is
      attached, however often it comes and goes, and whatever is lost. */
  lemma StreamOpensWithSnapshot(key: SubKey, evs: seq<KeyEvent>, c: nat)
    requires key.IsIncremental() && LegalRun(key, EMPTY, evs)
    requires Prompt(key, EMPTY, evs) && NobodySteals(key, EMPTY, evs)
    ensures Opens(Stream(key, EMPTY, evs, c))
  {
    hide Prompt, LegalRun, NobodySteals, Run, Stream, Heard, Opens;
    assert OpeningInv(key, EMPTY, {}, [], c) by { NothingOpens(); }
    RunKeepsOpening(key, EMPTY, evs, c);
  }

  lemma NothingOpens()
    ensures Opens([])
  {
  }

  // ---------- When a fresh joiner is safe ----------

  /** The client's stream opens with a snapshot however things go on, as long as the upstream pays what it
      owes from now on and nobody steals. */
  ghost predicate AlwaysOpens(key: SubKey, e: Entry, c: nat) {
    forall evs :: LegalRun(key, e, evs) && Prompt(key, e, evs) && NobodySteals(key, e, evs)
      ==> Opens(Stream(key, e, evs, c))
  }

  lemma HeightlessJoinOpens(key: SubKey, e: Entry, c: nat)
    requires key.IsIncremental() && !e.upstream && e.arb.last == 0
    ensures AlwaysOpens(key, JoinEntry(key, e, c), c)
  {
    var n := JoinEntry(key, e, c);
    assert OpeningInv(key, n, {}, [], c) by { NothingOpens(); }
    hide JoinEntry, LegalRun, Prompt, NobodySteals, Run, Stream, Heard, Opens;
    forall evs | LegalRun(key, n, evs) && Prompt(key, n, evs) && NobodySteals(key, n, evs)
      ensures Opens(Stream(key, n, evs, c))
    {
      RunKeepsOpening(key, n, evs, c);
    }
  }

  /** A source that opens below a height left behind has its snapshot dropped and its next increment
      taken. */
  lemma IncrementComesFirst(key: SubKey, e: Entry, c: nat, src: nat, p: Payload)
    requires key.IsIncremental() && c in e.subscribers && e.pending == [] && e.arb.last > 0 && e.upstream
    requires key.L2Diff? ==> e.arb.leader == Some(src)
    ensures var a := Arrive(Msg(src, Snapshot(1), p), 0);
            var m := Msg(src, if key.L2Diff? then Sticky(e.arb.last) else Block(e.arb.last + 1), p);
            var n := KeyStep(key, e, a);
            && Legal(key, e, a) && Offers(key, e, a, c) == [] && n.upstream
            && Legal(key, n, Arrive(m, 0)) && Offers(key, n, Arrive(m, 0), c) == [m]
  {
    hide Bumped;
    assert HoldAll([], Msg(src, Snapshot(1), p)) == [] && Kept([]) == [];
  }

  lemma PromptTwo(key: SubKey, e: Entry, a: Msg, b: Msg)
    requires e.upstream && KeyStep(key, e, Arrive(a, 0)).upstream
    requires a.ord.Snapshot? && a.ord.stamp > 0 && a.src == b.src
    ensures var evs := [Arrive(a, 0), Arrive(b, 0)]; Prompt(key, e, evs) && NobodySteals(key, e, evs)
  {
    hide KeyStep;
    var evs := [Arrive(a, 0), Arrive(b, 0)];
    assert evs[..0] == [] && evs[..1] == [Arrive(a, 0)] && evs[..1][..0] == [];
    assert Run(key, e, evs[..1]) == KeyStep(key, e, Arrive(a, 0));
    assert Heard(key, e, evs[..1]) == {a.src};
  }

  lemma HeightLeftBehindFails(key: SubKey, e: Entry, c: nat, p: Payload)
    requires key.IsIncremental() && c in e.subscribers && e.pending == [] && e.arb.last > 0 && e.upstream
    requires key.L2Diff? ==> e.arb.leader.Some?
    ensures !AlwaysOpens(key, e, c)
  {
    hide *;
    var src := if key.L2Diff? then e.arb.leader.value else 0;
    var a := Msg(src, Snapshot(1), p);
    var m := Msg(src, if key.L2Diff? then Sticky(e.arb.last) else Block(e.arb.last + 1), p);
    IncrementComesFirst(key, e, c, src, p);
    PromptTwo(key, e, a, m);
    TwoSteps(key, e, Arrive(a, 0), Arrive(m, 0), c);
    if AlwaysOpens(key, e, c) {
      OpensOn(key, e, c, [Arrive(a, 0), Arrive(m, 0)]);
      IncrementDoesNotOpen(m);
    }
  }

  lemma OpensOn(key: SubKey, e: Entry, c: nat, evs: seq<KeyEvent>)
    requires AlwaysOpens(key, e, c)
    requires LegalRun(key, e, evs) && Prompt(key, e, evs) && NobodySteals(key, e, evs)
    ensures Opens(Stream(key, e, evs, c))
  {
    hide LegalRun, Prompt, NobodySteals, Opens, Stream;
  }

  /** A client that joins a key nobody is subscribed to is safe exactly when the entry it finds has no
      height: then its stream opens with a snapshot, and otherwise some legal run in which the upstream
      pays all it owes from the join on sends it an increment first. */
  lemma FreshJoinIsSafeIff(key: SubKey, e: Entry, c: nat)
    requires key.IsIncremental() && WellFormed(key, e) && !e.upstream
    ensures AlwaysOpens(key, JoinEntry(key, e, c), c) <==> e.arb.last == 0
  {
    hide AlwaysOpens, NoRepeats, AllBounded, IsParked;
    if e.arb.last == 0 {
      HeightlessJoinOpens(key, e, c);
    } else {
      HeightLeftBehindFails(key, JoinEntry(key, e, c), c, Payload(ErrorFrame(""), 0, 0));
    }
  }

  // ---------- The checker ----------

  lemma L4NeverSteals(key: SubKey, e: Entry, evs: seq<KeyEvent>)
    requires key.L4Book?
    ensures NobodySteals(key, e, evs)
  {
  }

  lemma PromptOpensWell(key: SubKey, evs: seq<KeyEvent>, c: nat, i: nat)
    requires key.L4Book? && LegalRun(key, EMPTY, evs) && Prompt(key, EMPTY, evs) && i < |evs|
    ensures [] + Stream(key, EMPTY, evs[..i], c) == Stream(key, EMPTY, evs[..i], c)
    ensures OpensWell(key, Run(key, EMPTY, evs[..i]), evs[i], c, Stream(key, EMPTY, evs[..i], c))
  {
    hide Run, Offers, LegalRun, Prompt, Opens, Stream;
    var s := Stream(key, EMPTY, evs[..i], c);
    assert [] + s == s;
    if s == [] {
      PromptOffersASnapshotFirst(key, evs, c, i);
    }
  }

  lemma PromptIsMild(key: SubKey, evs: seq<KeyEvent>, c: nat)
    requires key.L4Book? && LegalRun(key, EMPTY, evs)
    requires Prompt(key, EMPTY, evs) && MildRun(key, EMPTY, evs, c)
    ensures MildFrom(key, EMPTY, evs, c, [])
  {
    hide Run, LegalRun, Prompt, Mild, OpensWell, Stream;
    forall i | 0 <= i < |evs|
      ensures var (n, sent) := (Run(key, EMPTY, evs[..i]), [] + Stream(key, EMPTY, evs[..i], c));
              Mild(n, evs[i], c, sent) && OpensWell(key, n, evs[i], c, sent)
    {
      PromptOpensWell(key, evs, c, i);
    }
  }

  lemma PromptIsFair(key: SubKey, evs: seq<KeyEvent>, c: nat)
    requires key.L4Book? && LegalRun(key, EMPTY, evs)
    requires Prompt(key, EMPTY, evs) && CalmRun(key, EMPTY, evs, c)
    ensures FairFrom(key, EMPTY, evs, c, [])
  {
    hide Run, LegalRun, Prompt, Calm, OpensWell, Stream;
    forall i | 0 <= i < |evs|
      ensures var (n, sent) := (Run(key, EMPTY, evs[..i]), [] + Stream(key, EMPTY, evs[..i], c));
              Calm(n, evs[i], c, sent) && OpensWell(key, n, evs[i], c, sent)
    {
      PromptOpensWell(key, evs, c, i);
    }
  }

  lemma PromptOffersASnapshotFirst(key: SubKey, evs: seq<KeyEvent>, c: nat, i: nat)
    requires key.L4Book? && LegalRun(key, EMPTY, evs) && Prompt(key, EMPTY, evs) && i < |evs|
    requires Stream(key, EMPTY, evs[..i], c) == []
    ensures Opens(Offers(key, Run(key, EMPTY, evs[..i]), evs[i], c))
  {
    hide Run, Offers, LegalRun, Prompt, NobodySteals, Opens, Stream;
    LegalPrefix(key, EMPTY, evs, i + 1);
    PromptPrefix(key, EMPTY, evs, i + 1);
    L4NeverSteals(key, EMPTY, evs[..i + 1]);
    StreamOpensWithSnapshot(key, evs[..i + 1], c);
    StreamLast(key, EMPTY, evs[..i + 1], c);
    assert evs[..i + 1][..i] == evs[..i];
    var offered := Offers(key, Run(key, EMPTY, evs[..i]), evs[i], c);
    assert [] + offered == offered;
  }

  lemma PromptPrefix(key: SubKey, e: Entry, evs: seq<KeyEvent>, n: nat)
    requires Prompt(key, e, evs) && n <= |evs|
    ensures Prompt(key, e, evs[..n])
  {
    hide Run, Heard, Owed;
    forall i | 0 <= i < n ensures Owed(Run(key, e, evs[..n][..i]), Heard(key, e, evs[..n][..i]), evs[..n][i]) {
      assert evs[..n][..i] == evs[..i];
    }
  }

  /** Every `l4Book` client's stream passes the checker, from an entry nobody has used on: provided the
      upstream pays what it owes, the client joins once and stays, and it is answered safely whenever it
      is answered. */
  lemma L4StreamPasses(key: SubKey, evs: seq<KeyEvent>, c: nat)
    requires key.L4Book? && LegalRun(key, EMPTY, evs)
    requires Prompt(key, EMPTY, evs) && CalmRun(key, EMPTY, evs, c)
    ensures Judged(Items(Stream(key, EMPTY, evs, c))).violations == []
    ensures SegmentsOrdered(Items(Stream(key, EMPTY, evs, c)))
  {
    hide Prompt, CalmRun, FairFrom, LegalRun, Judged, Items, SegmentsOrdered, Stream;
    PromptIsFair(key, evs, c);
    assert Listed(EMPTY) == [];
    ArbiterPassesTheChecker(key, EMPTY, evs, c);
  }

  /** Answered with a snapshot above the entry, which is what usually follows a loss, the stream passes
      exactly when no increment below that snapshot is forwarded to the client. */
  lemma L4StreamPassesIff(key: SubKey, evs: seq<KeyEvent>, c: nat)
    requires key.L4Book? && LegalRun(key, EMPTY, evs)
    requires Prompt(key, EMPTY, evs) && MildRun(key, EMPTY, evs, c)
    ensures Judged(Items(Stream(key, EMPTY, evs, c))).violations == [] <==> NeverBelow(key, EMPTY, evs, c, 0)
  {
    hide Prompt, MildRun, MildFrom, NeverBelow, LegalRun, Judged, Items, Stream;
    PromptIsMild(key, evs, c);
    assert Listed(EMPTY) == [];
    PassesIffNeverBelow(key, EMPTY, evs, c);
  }

  /** Such a height is left behind. A frame still on its way when the last client left makes the entry
      anew; a client that subscribes next finds a block open, and the very next increment of that block's
      source is its first frame. */
  lemma StrayFrameOpensAStream(coin: string, h: nat, p: Payload, q: Payload, now: nat)
    requires h > 0
    ensures var key := L4Book(coin);
            var evs := [Arrive(Msg(0, Block(h), p), now)] + [Join(1), Arrive(Msg(0, Block(h + 1), q), now)];
            && LegalRun(key, EMPTY, evs)
            && Stream(key, EMPTY, evs, 1) == [Msg(0, Block(h + 1), q)]
            && !Opens(Stream(key, EMPTY, evs, 1))
  {
    var key := L4Book(coin);
    var a, b, d := Arrive(Msg(0, Block(h), p), now), Join(1), Arrive(Msg(0, Block(h + 1), q), now);
    var e1 := KeyStep(key, EMPTY, a);
    StrayMakesAnEntry(key, a.msg, now);
    StrayIsFollowed(key, e1, d.msg, now);
    assert Legal(key, EMPTY, a) && Legal(key, e1, b) && Legal(key, KeyStep(key, e1, b), d);
    hide KeyStep, Offers, LegalRun, Run, Stream, Listed, Legal, Opens;
    TwoSteps(key, e1, b, d, 1);
    FirstStep(key, EMPTY, a, [b, d], 1);
    IncrementDoesNotOpen(d.msg);
  }

  lemma IncrementDoesNotOpen(m: Msg)
    requires !m.ord.Snapshot?
    ensures !Opens([m]) && [] + [m] == [m] && [] + ([] + [m]) == [m]
  {
  }

  lemma StrayMakesAnEntry(key: SubKey, m: Msg, now: nat)
    requires key.L4Book? && m.ord.Block? && m.ord.stamp > 0
    ensures var e := KeyStep(key, EMPTY, Arrive(m, now));
            && !e.upstream && e.subscribers == [] && e.pending == [] && Listed(e) == []
            && e.arb.last == m.ord.stamp && e.arb.needsSnapshot == {}
    ensures Offers(key, EMPTY, Arrive(m, now), 1) == []
  {
    assert HoldAll([], m) == [] && Kept([]) == [];
    hide Bumped, Kept, HoldAll;
  }

  lemma StrayIsFollowed(key: SubKey, e: Entry, m: Msg, now: nat)
    requires key.L4Book? && !e.upstream && e.subscribers == [] && e.arb.needsSnapshot == {}
    requires m.ord.Block? && m.ord.stamp > e.arb.last
    ensures Offers(key, e, Join(1), 1) == []
    ensures Offers(key, KeyStep(key, e, Join(1)), Arrive(m, now), 1) == [m]
  {
    hide Bumped;
  }
}
