/** When a waiting `l4Book` client can be answered: what is held for it must rise, and neither it nor the
snapshot may be higher than the entry stands. That is exactly what the checker needs, and when no source was
lost meanwhile it comes down to the snapshot. */
module SafeAnswers {
  import opened Wire
  import opened Arbiter
  import opened Entries
  import opened Streams
  import opened Epochs
  import opened LateJoin
  import opened L4Check
  import opened L4Stream

  // ---------- No loss while waiting ----------

  /** What is held for the client rises up to the height of the entry. */
  ghost predicate HeldInOrder(e: Entry, c: nat) {
    IsParked(e.pending, c) ==> Ascending(HeldBehind(e, c)) && Within(HeldBehind(e, c), 0, e.arb.last)
  }

  /** A waiting client keeps its entry from being dropped. */
  lemma ParkedIsNotDropped(e: Entry, ev: KeyEvent, c: nat)
    requires IsParked(e.pending, c) && ev != Leave(c)
    ensures !Drops(e, ev)
  {
    if ev.Leave? {
      ParkedIff(e.pending, c);
      WithoutPendingClients(e.pending, ev.client);
      WithoutExactly(ClientsOf(e.pending), ev.client);
      assert c in multiset(Without(ClientsOf(e.pending), ev.client));
    }
  }

  lemma {:induction false} PositionBeyond(p: seq<Pending>, q: seq<Pending>, c: nat)
    requires !IsParked(p, c)
    ensures Position(p + q, c) == |p| + Position(q, c)
  {
    if p == [] {
      assert p + q == q;
    } else {
      assert !IsParked(p[1..], c);
      assert (p + q)[1..] == p[1..] + q;
      PositionBeyond(p[1..], q, c);
    }
  }

  lemma WaitKeepsOrder(key: SubKey, e: Entry, ev: KeyEvent, c: nat)
    requires key.L4Book? && WellFormed(key, e) && Legal(key, e, ev)
    requires IsParked(e.pending, c) && HeldInOrder(e, c) && !Concerns(ev, c) && !Parks(key, e, ev)
    ensures HeldInOrder(KeyStep(key, e, ev), c)
  {
    var n := KeyStep(key, e, ev);
    ParkedIsNotDropped(e, ev, c);
    StepHeights(key, e, ev);
    AtMostOne(key, e, ev);
    hide KeyStep, WellFormed, Legal, IsParked, Forwards, Drops, Parks, Concerns;
    if IsParked(n.pending, c) {
      StepKeepsWaiting(key, e, ev, c);
      AscendingAppend(HeldBehind(e, c), Forwards(key, e, ev), 0, e.arb.last, n.arb.last);
    }
  }

  /** A client taken off the waiting list by a step of its own is off it. */
  lemma OwnStepEndsWait(key: SubKey, e: Entry, ev: KeyEvent, c: nat)
    requires WellFormed(key, e) && IsParked(e.pending, c) && Concerns(ev, c) && !ev.Join?
    ensures !IsParked(KeyStep(key, e, ev).pending, c)
  {
    PendingNoRepeats(key, e);
    assert multiset(ClientsOf(e.pending))[c] <= 1;
    if ev.Leave? {
      WithoutPendingClients(e.pending, c);
      WithoutExactly(ClientsOf(e.pending), c);
      ParkedIff(WithoutPending(e.pending, c), c);
      assert c !in multiset(Without(ClientsOf(e.pending), c));
    } else {
      var i := Position(e.pending, c);
      RemovedClients(e.pending, i);
      ParkedIff(Removed(e.pending, i), c);
    }
  }

  lemma AwayKeepsOrder(key: SubKey, e: Entry, ev: KeyEvent, c: nat)
    requires WellFormed(key, e) && !IsParked(e.pending, c)
    ensures HeldInOrder(KeyStep(key, e, ev), c)
  {
    hide WellFormed, Parks, HeldInOrder, JoinEntry, LeaveEntry, UpdateEntry, AnswerEntry, LoseEntry, GiveUpEntry;
    var n := KeyStep(key, e, ev);
    if IsParked(n.pending, c) {
      if Parks(key, e, ev) {
        ParkedHoldNothing(key, e, ev, c);
      } else if ev == Join(c) {
        JoinersHoldNothing(key, e, c);
      } else if ev.Join? {
        JoinAddsOnlyTheJoiner(key, e, ev.client, c);
      } else {
        WaitingListShrinks(key, e, ev);
        FewerParked(e.pending, n.pending, c);
      }
    } else {
      NobodyHeldFor(n, c);
    }
  }

  lemma NobodyHeldFor(e: Entry, c: nat)
    requires !IsParked(e.pending, c)
    ensures HeldInOrder(e, c)
  {
  }

  lemma ParkedHoldNothing(key: SubKey, e: Entry, ev: KeyEvent, c: nat)
    requires Parks(key, e, ev) && !IsParked(e.pending, c) && IsParked(KeyStep(key, e, ev).pending, c)
    ensures HeldInOrder(KeyStep(key, e, ev), c)
  {
    PositionBeyond(e.pending, Parking(e.subscribers), c);
    assert HeldBehind(KeyStep(key, e, ev), c) == [];
  }

  lemma JoinersHoldNothing(key: SubKey, e: Entry, c: nat)
    requires !IsParked(e.pending, c) && IsParked(KeyStep(key, e, Join(c)).pending, c)
    ensures HeldInOrder(KeyStep(key, e, Join(c)), c)
  {
    PositionAtEnd(e.pending, Pending(c, [], 0));
    assert HeldBehind(KeyStep(key, e, Join(c)), c) == [];
  }

  lemma StepKeepsOrder(key: SubKey, e: Entry, ev: KeyEvent, c: nat)
    requires key.L4Book? && WellFormed(key, e) && Legal(key, e, ev)
    requires HeldInOrder(e, c) && (Parks(key, e, ev) ==> !IsParked(e.pending, c))
    ensures HeldInOrder(KeyStep(key, e, ev), c)
  {
    hide KeyStep, HeldInOrder, WellFormed, IsParked, Parks, Listed;
    if !IsParked(e.pending, c) {
      AwayKeepsOrder(key, e, ev, c);
    } else if !Concerns(ev, c) {
      WaitKeepsOrder(key, e, ev, c);
    } else if ev.Join? {
      JoinedIsListed(e, c);
    } else {
      OwnStepEndsWait(key, e, ev, c);
      NotWaitingInOrder(KeyStep(key, e, ev), c);
    }
  }

  lemma JoinedIsListed(e: Entry, c: nat)
    requires IsParked(e.pending, c)
    ensures c in Listed(e)
  {
    ParkedIff(e.pending, c);
  }

  lemma NotWaitingInOrder(e: Entry, c: nat)
    requires !IsParked(e.pending, c)
    ensures HeldInOrder(e, c)
  {
  }

  /** No source is lost while the client waits. */
  ghost predicate QuietWait(key: SubKey, e: Entry, evs: seq<KeyEvent>, c: nat) {
    forall i :: 0 <= i < |evs| ==>
      Parks(key, Run(key, e, evs[..i]), evs[i]) ==> !IsParked(Run(key, e, evs[..i]).pending, c)
  }

  lemma {:induction false} RunKeepsOrder(key: SubKey, e: Entry, evs: seq<KeyEvent>, c: nat)
    requires key.L4Book? && WellFormed(key, e) && LegalRun(key, e, evs)
    requires HeldInOrder(e, c) && QuietWait(key, e, evs, c)
    ensures HeldInOrder(Run(key, e, evs), c)
  {
    hide KeyStep, HeldInOrder, WellFormed, Legal, Parks, IsParked;
    if evs != [] {
      var k := |evs| - 1;
      LegalPrefix(key, e, evs, k);
      RunKeepsWellFormed(key, e, evs[..k]);
      forall i | 0 <= i < k ensures evs[..k][..i] == evs[..i] && evs[..k][i] == evs[i] {
      }
      RunKeepsOrder(key, e, evs[..k], c);
      StepKeepsOrder(key, Run(key, e, evs[..k]), evs[k], c);
    }
  }

  lemma {:induction false} BacklogAscends(held: seq<Msg>, height: nat, single: bool, src: nat)
    requires Ascending(held)
    ensures Ascending(Backlog(held, height, single, src))
    ensures forall m <- Backlog(held, height, single, src) :: held != [] && m.ord.stamp <= held[|held| - 1].ord.stamp
  {
    if held != [] {
      var k := |held| - 1;
      BacklogAscends(held[..k], height, single, src);
    }
  }

  lemma OrderedIsSafe(e: Entry, c: nat, snapshot: Msg)
    requires IsParked(e.pending, c) && HeldInOrder(e, c)
    ensures SafeBacklog(e, c, snapshot)
  {
    BacklogAscends(HeldBehind(e, c), snapshot.ord.stamp, false, snapshot.src);
  }

  /** Whenever a client is answered in a run in which no source is lost while it waits, what is held for
      it is safe to send, so the answer is safe exactly when its snapshot is not above the entry. */
  lemma NoLossWhileWaitingIsSafe(key: SubKey, e: Entry, evs: seq<KeyEvent>, c: nat, snapshot: Msg)
    requires key.L4Book? && WellFormed(key, e) && LegalRun(key, e, evs)
    requires !IsParked(e.pending, c) && QuietWait(key, e, evs, c)
    requires IsParked(Run(key, e, evs).pending, c)
    ensures SafeBacklog(Run(key, e, evs), c, snapshot)
    ensures SafeAnswer(Run(key, e, evs), c, snapshot) <==> snapshot.ord.stamp <= Run(key, e, evs).arb.last
  {
    NotWaitingInOrder(e, c);
    hide HeldInOrder, SafeBacklog, Run, WellFormed, LegalRun, QuietWait;
    RunKeepsOrder(key, e, evs, c);
    OrderedIsSafe(Run(key, e, evs), c, snapshot);
  }

  // ---------- A second loss while a client waits ----------

  /** The condition on waiting clients is needed. The frames held behind one survive the loss of the
      source that sent them; when the client is then answered below the height they had reached, it
      gets them first and the survivor's lower blocks after. */
  lemma SecondLossWhileWaitingBreaksOrder(
      key: SubKey, e: Entry, c: nat, s: nat, m: Msg, snapshot: Msg, now: nat)
    requires key.L4Book? && WellFormed(key, e) && IsParked(e.pending, c) && LedBy(e, s)
    requires HeldBehind(e, c) == [m] && m.ord.Block? && m.ord.stamp > snapshot.ord.stamp + 1
    requires snapshot.ord.Snapshot? && SourceBit(snapshot.src) !in e.arb.needsSnapshot
    requires SourceBit(snapshot.src) != SourceBit(s)
    ensures var next := Msg(snapshot.src, Block(snapshot.ord.stamp + 1), snapshot.payload);
            var evs := [Lost(s), Answer(c, snapshot), Arrive(next, now)];
            && Stream(key, e, evs, c) == [snapshot, m, next]
            && Judged(Items(Stream(key, e, evs, c))).violations != []
  {
    hide KeyStep, Offers, Stream, Judged, WellFormed, IsParked, Backlog;
    var next := Msg(snapshot.src, Block(snapshot.ord.stamp + 1), snapshot.payload);
    LossKeepsHeld(key, e, s, c);
    var e1 := KeyStep(key, e, Lost(s));
    AnswerAttaches(key, e1, c, snapshot);
    AnswerKeepsArb(key, e1, c, snapshot);
    var e2 := KeyStep(key, e1, Answer(c, snapshot));
    OneHeld(m, snapshot.ord.stamp, snapshot.src);
    ThreeSteps(key, e, Lost(s), Answer(c, snapshot), Arrive(next, now), c);
    SurvivorGoesOut(key, e2, next, now, c);
    assert Offers(key, e, Lost(s), c) == [] by { LossOffersNothing(key, e, s, c); }
    StepsBack(snapshot, m, next);
  }

  lemma LossOffersNothing(key: SubKey, e: Entry, s: nat, c: nat)
    ensures Offers(key, e, Lost(s), c) == []
  {
  }

  lemma LossKeepsHeld(key: SubKey, e: Entry, s: nat, c: nat)
    requires key.L4Book? && IsParked(e.pending, c) && LedBy(e, s)
    ensures var n := KeyStep(key, e, Lost(s));
            && IsParked(n.pending, c) && HeldBehind(n, c) == HeldBehind(e, c)
            && n.arb.last == 0 && n.arb.needsSnapshot == e.arb.needsSnapshot + {SourceBit(s)}
  {
    PositionAppend(e.pending, Parking(e.subscribers), c);
  }

  lemma AnswerKeepsArb(key: SubKey, e: Entry, c: nat, snapshot: Msg)
    requires key.L4Book?
    ensures KeyStep(key, e, Answer(c, snapshot)).arb == e.arb
  {
    hide Removed;
  }

  lemma OneHeld(m: Msg, height: nat, src: nat)
    requires m.ord.stamp > height
    ensures Backlog([m], height, false, src) == [m]
  {
    assert [m][..0] == [];
  }

  lemma SurvivorGoesOut(key: SubKey, e: Entry, m: Msg, now: nat, c: nat)
    requires m.ord.Block? && SourceBit(m.src) !in e.arb.needsSnapshot && m.ord.stamp > e.arb.last
    requires c in e.subscribers
    ensures Offers(key, e, Arrive(m, now), c) == [m]
  {
    hide Bumped;
  }

  lemma StepsBack(snapshot: Msg, m: Msg, next: Msg)
    requires m.ord.Block? && next.ord.Block? && next.ord.stamp < m.ord.stamp
    ensures Judged(Items([snapshot, m, next])).violations != []
  {
    hide Judged;
    var items := Items([snapshot, m, next]);
    assert items[1] == Data(false, Some(m.ord.stamp)) && items[2] == Data(false, Some(next.ord.stamp));
    assert !Restarts(items, 2);
    assert SameSegment(items, 1, 2);
    NoViolationIffOrdered(items);
  }

  lemma ThreeSteps(key: SubKey, e: Entry, a: KeyEvent, b: KeyEvent, d: KeyEvent, c: nat)
    ensures Stream(key, e, [a, b, d], c) ==
              Offers(key, e, a, c)
              + Offers(key, KeyStep(key, e, a), b, c)
              + Offers(key, KeyStep(key, KeyStep(key, e, a), b), d, c)
  {
    hide *;
    FirstStep(key, e, a, [b, d], c);
    TwoSteps(key, KeyStep(key, e, a), b, d, c);
    assert [a] + [b, d] == [a, b, d];
  }

  // ---------- That state is reached ----------

  lemma BlockIsHeld(key: SubKey, e: Entry, c: nat, m: Msg, now: nat)
    requires key.L4Book? && m.ord.Block? && m.ord.stamp > e.arb.last && e.arb.needsSnapshot == {}
    requires e.pending == [Pending(c, [], 0)] && m.payload.len <= PENDING_MAX_BYTES
    ensures var n := KeyStep(key, e, Arrive(m, now));
            && n.pending == [Pending(c, [m], m.payload.len)] && n.subscribers == e.subscribers
            && LedBy(n, m.src) && n.arb.last == m.ord.stamp && n.arb.needsSnapshot == {}
            && n.upstream == e.upstream
  {
    hide HoldAll, Kept, Ruled;
    BlockRules(key, e, m, now);
    OneHolds(c, m);
  }

  lemma BlockRules(key: SubKey, e: Entry, m: Msg, now: nat)
    requires key.L4Book? && m.ord.Block? && m.ord.stamp > e.arb.last && e.arb.needsSnapshot == {}
    ensures var r := Ruled(key, e, m, now);
            && r.deliver && Holds(m.ord) && r.arb.leader == Some(m.src) && r.arb.last == m.ord.stamp
            && r.arb.needsSnapshot == {}
  {
    hide Bumped;
  }

  lemma OneHolds(c: nat, m: Msg)
    requires m.payload.len <= PENDING_MAX_BYTES
    ensures Kept(HoldAll([Pending(c, [], 0)], m)) == [Pending(c, [m], m.payload.len)]
  {
    assert [] + [m] == [m];
    assert HoldAll([Pending(c, [], 0)], m) == [Pending(c, [m], m.payload.len)];
    assert [Pending(c, [m], m.payload.len)][..0] == [] && Kept([]) == [];
  }

  lemma SnapshotOpens(key: SubKey, e: Entry, m: Msg, now: nat)
    requires key.L4Book? && m.ord.Snapshot? && e.pending == [] && e.arb.needsSnapshot == {}
    ensures var n := KeyStep(key, e, Arrive(m, now));
            && n.subscribers == e.subscribers && n.pending == [] && n.upstream == e.upstream
            && n.arb.needsSnapshot == {}
            && n.arb.last == (if m.ord.stamp > e.arb.last then m.ord.stamp else e.arb.last)
  {
    hide Bumped;
    assert HoldAll([], m) == [] && Kept([]) == [];
  }

  lemma JoinsBehind(key: SubKey, e: Entry, c: nat)
    requires key.L4Book? && e.upstream && e.pending == [] && c !in e.subscribers
    ensures KeyStep(key, e, Join(c)) == e.(pending := [Pending(c, [], 0)])
    ensures c !in Listed(e)
  {
  }

  /** Two sources open a client's stream. */
  function TwoOpen(h: nat, p: Payload): seq<KeyEvent> {
    [Join(1)] + [Arrive(Msg(0, Snapshot(h), p), 0), Arrive(Msg(1, Snapshot(h), p), 0)]
  }

  lemma FirstToJoin(key: SubKey, c: nat)
    requires key.L4Book? && c != 1
    ensures KeyStep(key, EMPTY, Join(1)) == Entry(FRESH, true, false, [1], [])
    ensures Legal(key, EMPTY, Join(1)) && Offers(key, EMPTY, Join(1), c) == []
  {
    assert Listed(EMPTY) == [];
  }

  lemma OpenedTwice(key: SubKey, h: nat, p: Payload, c: nat)
    requires key.L4Book? && h > 0 && c != 1
    ensures var (e, evs) := (Entry(FRESH, true, false, [1], []), TwoOpen(h, p)[1..]);
            var n := Run(key, e, evs);
            && LegalRun(key, e, evs) && Stream(key, e, evs, c) == []
            && n.subscribers == [1] && n.pending == [] && n.upstream
            && n.arb.last == h && n.arb.needsSnapshot == {}
  {
    var e := Entry(FRESH, true, false, [1], []);
    var b, d := Arrive(Msg(0, Snapshot(h), p), 0), Arrive(Msg(1, Snapshot(h), p), 0);
    SnapshotOpens(key, e, b.msg, 0);
    SnapshotOpens(key, KeyStep(key, e, b), d.msg, 0);
    hide KeyStep, LegalRun, Run, Stream;
    TwoOpenParts(h, p);
    TwoSteps(key, e, b, d, c);
  }

  lemma OpenedFromTheStart(key: SubKey, h: nat, p: Payload, c: nat)
    requires key.L4Book? && h > 0 && c != 1
    ensures var e := Run(key, EMPTY, TwoOpen(h, p));
            && LegalRun(key, EMPTY, TwoOpen(h, p)) && WellFormed(key, e)
            && e.subscribers == [1] && e.pending == [] && e.upstream
            && e.arb.last == h && e.arb.needsSnapshot == {}
            && Stream(key, EMPTY, TwoOpen(h, p), c) == []
  {
    hide *;
    FirstToJoin(key, c);
    TwoOpenParts(h, p);
    OpenedTwice(key, h, p, c);
    FirstStep(key, EMPTY, Join(1), TwoOpen(h, p)[1..], c);
    assert TwoOpen(h, p) == [Join(1)] + TwoOpen(h, p)[1..];
    EmptyIsWellFormed(key);
    RunKeepsWellFormed(key, EMPTY, TwoOpen(h, p));
  }

  lemma TwoOpenParts(h: nat, p: Payload)
    ensures |TwoOpen(h, p)| == 3 && TwoOpen(h, p)[0] == Join(1)
    ensures TwoOpen(h, p)[1..] == [Arrive(Msg(0, Snapshot(h), p), 0), Arrive(Msg(1, Snapshot(h), p), 0)]
  {
  }

  /** Then a second client joins late, and waits behind a frame of the first source. */
  function Prelude(h: nat, p: Payload): seq<KeyEvent> {
    TwoOpen(h, p) + [Join(2), Arrive(Msg(0, Block(h + 5), p), 0)]
  }

  lemma PreludeParks(key: SubKey, h: nat, p: Payload)
    requires key.L4Book? && h > 0 && p.len <= PENDING_MAX_BYTES
    ensures var e := Run(key, EMPTY, Prelude(h, p));
            && LegalRun(key, EMPTY, Prelude(h, p)) && WellFormed(key, e)
            && e.pending == [Pending(2, [Msg(0, Block(h + 5), p)], p.len)]
            && LedBy(e, 0) && e.arb.needsSnapshot == {} && 2 !in e.subscribers
            && Stream(key, EMPTY, Prelude(h, p), 2) == []
  {
    var e := Run(key, EMPTY, TwoOpen(h, p));
    var f, g := Join(2), Arrive(Msg(0, Block(h + 5), p), 0);
    OpenedFromTheStart(key, h, p, 2);
    JoinsBehind(key, e, 2);
    BlockIsHeld(key, KeyStep(key, e, f), 2, g.msg, 0);
    hide KeyStep, Listed, JoinEntry, UpdateEntry, LegalRun, Run, Stream, WellFormed, TwoOpen;
    TwoSteps(key, e, f, g, 2);
    LegalJoin(key, EMPTY, TwoOpen(h, p), [f, g]);
    RunSplit(key, EMPTY, TwoOpen(h, p), [f, g]);
    StreamSplit(key, EMPTY, TwoOpen(h, p), [f, g], 2);
    EmptyIsWellFormed(key);
    RunKeepsWellFormed(key, EMPTY, Prelude(h, p));
  }

  lemma EmptyIsWellFormed(key: SubKey)
    ensures WellFormed(key, EMPTY)
  {
    assert Listed(EMPTY) == [];
  }

  /** A second loss while a client waits breaks the order of its stream, in a legal run from the start:
      the leader's frame is held, the leader is lost, and the other source answers from below it and
      goes on from there. */
  lemma SecondLossBreaksOrderFromTheStart(key: SubKey, h: nat, p: Payload)
    requires key.L4Book? && h > 0 && p.len <= PENDING_MAX_BYTES
    ensures var snapshot := Msg(1, Snapshot(h + 2), p);
            var next := Msg(1, Block(h + 3), p);
            var evs := Prelude(h, p) + [Lost(0), Answer(2, snapshot), Arrive(next, 0)];
            && LegalRun(key, EMPTY, evs)
            && Stream(key, EMPTY, evs, 2) == [snapshot, Msg(0, Block(h + 5), p), next]
            && Judged(Items(Stream(key, EMPTY, evs, 2))).violations != []
  {
    hide Run, Stream, LegalRun, Judged, Items, WellFormed, KeyStep;
    var snapshot, next := Msg(1, Snapshot(h + 2), p), Msg(1, Block(h + 3), p);
    var pre, rest := Prelude(h, p), [Lost(0), Answer(2, snapshot), Arrive(next, 0)];
    var e := Run(key, EMPTY, pre);
    PreludeParks(key, h, p);
    SecondLossWhileWaitingBreaksOrder(key, e, 2, 0, Msg(0, Block(h + 5), p), snapshot, 0);
    StreamSplit(key, EMPTY, pre, rest, 2);
    FirstStep(key, e, Lost(0), [Answer(2, snapshot), Arrive(next, 0)], 2);
    TwoSteps(key, KeyStep(key, e, Lost(0)), Answer(2, snapshot), Arrive(next, 0), 2);
    assert [Lost(0)] + [Answer(2, snapshot), Arrive(next, 0)] == rest;
    LegalJoin(key, EMPTY, pre, rest);
  }

  // ---------- Exactly when an answer is safe ----------

  /** Whatever happens once the client is answered, its stream passes the checker, as long as it joins no
      second time, stays, and is answered safely again whenever it is parked again. */
  ghost predicate AlwaysPasses(key: SubKey, e: Entry, c: nat, s: seq<Msg>, snapshot: Msg)
    requires IsParked(e.pending, c)
  {
    var n := KeyStep(key, e, Answer(c, snapshot));
    var sent := s + ([snapshot] + Behind(e, c, snapshot));
    forall evs :: LegalRun(key, n, evs) && FairFrom(key, n, evs, c, sent)
      ==> NoViolation(sent + Stream(key, n, evs, c))
  }

  lemma UnrisingViolates(s: seq<Msg>, snapshot: Msg, b: seq<Msg>)
    requires !Rising(b)
    ensures !NoViolation(s + ([snapshot] + b))
  {
    hide NoViolation;
    var i :| 0 < i < |b| && !b[i].ord.Snapshot? && b[i - 1].ord.stamp > b[i].ord.stamp;
    var t := s + ([snapshot] + b);
    assert t[|s| + 1 + i] == b[i] && t[|s| + i] == b[i - 1];
    FallViolates(t, |s| + 1 + i);
  }

  lemma FairLater(key: SubKey, e: Entry, ev: KeyEvent, rest: seq<KeyEvent>, c: nat, s: seq<Msg>, i: nat)
    requires FairFrom(key, KeyStep(key, e, ev), rest, c, s + Offers(key, e, ev, c)) && i < |rest|
    ensures var (n, sent) := (Run(key, e, [ev] + rest[..i]), s + Stream(key, e, [ev] + rest[..i], c));
            Calm(n, rest[i], c, sent) && OpensWell(key, n, rest[i], c, sent)
  {
    hide Calm, OpensWell, KeyStep, Offers, Run, Stream;
    FirstStep(key, e, ev, rest[..i], c);
    var offered, later := Offers(key, e, ev, c), Stream(key, KeyStep(key, e, ev), rest[..i], c);
    assert s + (offered + later) == s + offered + later;
  }

  lemma FairFirst(key: SubKey, e: Entry, ev: KeyEvent, rest: seq<KeyEvent>, c: nat, s: seq<Msg>)
    requires Calm(e, ev, c, s) && OpensWell(key, e, ev, c, s)
    requires FairFrom(key, KeyStep(key, e, ev), rest, c, s + Offers(key, e, ev, c))
    ensures FairFrom(key, e, [ev] + rest, c, s)
  {
    hide Calm, OpensWell, KeyStep, Offers, Run, Stream;
    var evs := [ev] + rest;
    forall i | 0 <= i < |evs|
      ensures var (n, sent) := (Run(key, e, evs[..i]), s + Stream(key, e, evs[..i], c));
              Calm(n, evs[i], c, sent) && OpensWell(key, n, evs[i], c, sent)
    {
      if i == 0 {
        NothingRuns(key, e, c);
        assert evs[..0] == [] && s + [] == s;
      } else {
        assert evs[..i] == [ev] + rest[..i - 1] && evs[i] == rest[i - 1];
        hide FairFrom;
        FairLater(key, e, ev, rest, c, s, i - 1);
      }
    }
  }

  /** One more frame of the open block from a source: it goes out, or its source has caught up by one. */
  lemma RaceOnce(key: SubKey, e: Entry, c: nat, m: Msg)
    requires key.L4Book? && c in e.subscribers && m.ord == Block(e.arb.last)
    requires SourceBit(m.src) !in e.arb.needsSnapshot && e.arb.sent < U32 - 1
    ensures var (n, seen) := (KeyStep(key, e, Arrive(m, 0)), (SeenBy(e.arb.seen, m.src) + 1) % U32);
            if seen > e.arb.sent then Offers(key, e, Arrive(m, 0), c) == [m]
            else
              && Forwards(key, e, Arrive(m, 0)) == [] && Offers(key, e, Arrive(m, 0), c) == []
              && n.subscribers == e.subscribers && n.arb.last == e.arb.last && n.arb.sent == e.arb.sent
              && n.arb.needsSnapshot == e.arb.needsSnapshot && SeenBy(n.arb.seen, m.src) == seen
  {
    hide Kept, HoldAll;
  }

  lemma ArriveIsFair(key: SubKey, e: Entry, m: Msg, c: nat, s: seq<Msg>)
    requires s != []
    ensures Calm(e, Arrive(m, 0), c, s) && OpensWell(key, e, Arrive(m, 0), c, s)
  {
    hide SafeBacklog;
  }

  /** How far the source is from getting a frame of the open block through. */
  function ToGo(e: Entry, src: nat): nat {
    var v := SeenBy(e.arb.seen, src);
    if v > e.arb.sent then e.arb.sent + 2 else e.arb.sent + 1 - v
  }

  lemma RaceShortens(key: SubKey, e: Entry, c: nat, m: Msg)
    requires key.L4Book? && c in e.subscribers && m.ord == Block(e.arb.last)
    requires SourceBit(m.src) !in e.arb.needsSnapshot && e.arb.sent < U32 - 1
    requires (SeenBy(e.arb.seen, m.src) + 1) % U32 <= e.arb.sent
    ensures ToGo(KeyStep(key, e, Arrive(m, 0)), m.src) < ToGo(e, m.src)
  {
    hide KeyStep, Forwards, Offers, SeenBy, SourceBit;
    RaceOnce(key, e, c, m);
  }

  /** Enough frames of the open block from one source get one of them through. */
  lemma {:induction false} RaceGetsThrough(key: SubKey, e: Entry, c: nat, m: Msg, s: seq<Msg>)
    returns (evs: seq<KeyEvent>)
    requires key.L4Book? && c in e.subscribers && m.ord == Block(e.arb.last) && s != []
    requires SourceBit(m.src) !in e.arb.needsSnapshot && e.arb.sent < U32 - 1
    ensures forall ev <- evs :: ev == Arrive(m, 0)
    ensures LegalRun(key, e, evs) && FairFrom(key, e, evs, c, s) && Stream(key, e, evs, c) == [m]
    decreases ToGo(e, m.src)
  {
    hide KeyStep, Offers, Forwards, Calm, OpensWell, LegalRun, FairFrom, Stream, Run, SeenBy, SourceBit, ToGo;
    var ev := Arrive(m, 0);
    var n := KeyStep(key, e, ev);
    var seen := (SeenBy(e.arb.seen, m.src) + 1) % U32;
    RaceOnce(key, e, c, m);
    ArriveIsFair(key, e, m, c, s);
    var rest := [];
    if seen > e.arb.sent {
      NothingRuns(key, n, c);
      NothingIsFair(key, n, c, s + Offers(key, e, ev, c));
    } else {
      RaceShortens(key, e, c, m);
      rest := RaceGetsThrough(key, n, c, m, s + Offers(key, e, ev, c));
      assert s + [] == s;
    }
    evs := [ev] + rest;
    FirstStep(key, e, ev, rest, c);
    FairFirst(key, e, ev, rest, c, s);
  }

  lemma NothingIsFair(key: SubKey, e: Entry, c: nat, s: seq<Msg>)
    ensures FairFrom(key, e, [], c, s)
  {
  }

  lemma UnrisingAnswerFails(key: SubKey, e: Entry, c: nat, s: seq<Msg>, snapshot: Msg)
    requires key.L4Book? && IsParked(e.pending, c) && !Rising(Behind(e, c, snapshot))
    ensures !AlwaysPasses(key, e, c, s, snapshot)
  {
    hide KeyStep, LegalRun, FairFrom, NoViolation, Behind, Rising, Stream, IsParked, Run;
    var n := KeyStep(key, e, Answer(c, snapshot));
    var sent := s + ([snapshot] + Behind(e, c, snapshot));
    NothingRuns(key, n, c);
    NothingIsFair(key, n, c, sent);
    UnrisingViolates(s, snapshot, Behind(e, c, snapshot));
    assert sent + Stream(key, n, [], c) == sent;
  }

  /** Whatever the client was sent last, if that is above the entry, a frame of the open block comes below
      it. */
  lemma HighAnswerFails(key: SubKey, e: Entry, c: nat, s: seq<Msg>, snapshot: Msg, t: nat)
    requires key.L4Book? && IsParked(e.pending, c)
    requires Top(Behind(e, c, snapshot), snapshot.ord.stamp) > e.arb.last
    requires SourceBit(t) !in e.arb.needsSnapshot && e.arb.sent < U32 - 1
    ensures !AlwaysPasses(key, e, c, s, snapshot)
  {
    hide KeyStep, LegalRun, FairFrom, NoViolation, Behind, Stream, IsParked, Run, Offers, SourceBit;
    var n, b := KeyStep(key, e, Answer(c, snapshot)), Behind(e, c, snapshot);
    var sent := s + ([snapshot] + b);
    AnswerAttaches(key, e, c, snapshot);
    AnswerKeepsArb(key, e, c, snapshot);
    var m := Msg(t, Block(e.arb.last), snapshot.payload);
    var evs := RaceGetsThrough(key, n, c, m, sent);
    assert (sent + [m])[|sent|] == m && (sent + [m])[|sent| - 1].ord.stamp == Top(b, snapshot.ord.stamp);
    FallViolates(sent + [m], |sent|);
  }

  lemma UnsafeAnswerFails(key: SubKey, e: Entry, c: nat, s: seq<Msg>, snapshot: Msg, t: nat)
    requires key.L4Book? && IsParked(e.pending, c) && !SafeAnswer(e, c, snapshot)
    requires SourceBit(t) !in e.arb.needsSnapshot && e.arb.sent < U32 - 1
    ensures !AlwaysPasses(key, e, c, s, snapshot)
  {
    var b := Behind(e, c, snapshot);
    BacklogAboveHeight(HeldBehind(e, c), snapshot.ord.stamp, false, snapshot.src);
    hide AlwaysPasses, Behind, Backlog, Rising, IsParked;
    if !Rising(b) {
      UnrisingAnswerFails(key, e, c, s, snapshot);
    } else {
      assert b != [] ==> b[|b| - 1] in b;
      HighAnswerFails(key, e, c, s, snapshot, t);
    }
  }

  /** A waiting client can be answered exactly when what is held above the snapshot rises, and neither it
      nor the snapshot is higher than the entry stands: then its stream passes whatever comes, and
      otherwise a legal run breaks it. Some source must not be written off, and the open block's counter
      not be at its 32-bit end, for the entry to forward anything. */
  lemma AnswerIsSafeIff(key: SubKey, e: Entry, c: nat, s: seq<Msg>, snapshot: Msg, t: nat)
    requires key.L4Book? && WellFormed(key, e) && IsParked(e.pending, c)
    requires NoViolation(s) && Opens(s) && snapshot.ord.Snapshot?
    requires SourceBit(t) !in e.arb.needsSnapshot && e.arb.sent < U32 - 1
    ensures SafeAnswer(e, c, snapshot) <==> AlwaysPasses(key, e, c, s, snapshot)
  {
    hide SafeAnswer, LegalRun, FairFrom, NoViolation, WellFormed, Stream, IsParked, Opens;
    if SafeAnswer(e, c, snapshot) {
      SafeAnswerPasses(key, e, c, s, snapshot);
    } else {
      UnsafeAnswerFails(key, e, c, s, snapshot, t);
    }
  }

  lemma SafeAnswerPasses(key: SubKey, e: Entry, c: nat, s: seq<Msg>, snapshot: Msg)
    requires key.L4Book? && WellFormed(key, e) && IsParked(e.pending, c)
    requires NoViolation(s) && Opens(s) && snapshot.ord.Snapshot? && SafeAnswer(e, c, snapshot)
    ensures AlwaysPasses(key, e, c, s, snapshot)
  {
    hide KeyStep, LegalRun, FairFrom, MildFrom, NeverBelow, Behind, Stream, Run, Base, Offers, IsParked, WellFormed;
    hide NoViolation, Opens, Clean, SafeBacklog;
    var n := KeyStep(key, e, Answer(c, snapshot));
    var sent := s + ([snapshot] + Behind(e, c, snapshot));
    AnswerAttaches(key, e, c, snapshot);
    AnswerKeepsHeight(key, e, c, snapshot);
    BehindIs(e, c, snapshot);
    if c in e.subscribers {
      SubscriberIsNotParked(key, e, c);
    }
    StepAnswered(key, e, snapshot, c, 0, s);
    AnswerKeepsWellFormed(key, e, c, snapshot);
    forall evs | LegalRun(key, n, evs) && FairFrom(key, n, evs, c, sent)
      ensures NoViolation(sent + Stream(key, n, evs, c))
    {
      FairIsMild(key, n, evs, c, sent);
      SafeAnswersCover(key, n, evs, c, snapshot.ord.stamp, sent);
      RunPasses(key, n, evs, c, snapshot.ord.stamp, sent);
    }
  }

  lemma BehindIs(e: Entry, c: nat, snapshot: Msg)
    requires IsParked(e.pending, c)
    ensures Behind(e, c, snapshot) == Backlog(HeldBehind(e, c), snapshot.ord.stamp, false, snapshot.src)
  {
  }

  lemma AnswerKeepsWellFormed(key: SubKey, e: Entry, c: nat, snapshot: Msg)
    requires key.L4Book? && WellFormed(key, e) && snapshot.ord.Snapshot?
    ensures WellFormed(key, KeyStep(key, e, Answer(c, snapshot)))
  {
    hide WellFormed;
    StepKeepsWellFormed(key, e, Answer(c, snapshot));
  }
}
