/** Runs of one subscription, and the stream each client is offered along them.

`Stream` is what the arbiter puts before a client, step by step; that the client's queue holds
exactly this, unless the client is hung up, is proved in module `Delivery`. */
module Streams {
  import opened Wire
  import opened Arbiter
  import opened Entries

  function Run(key: SubKey, e: Entry, evs: seq<KeyEvent>): Entry {
    if evs == [] then e
    else KeyStep(key, Run(key, e, evs[..|evs| - 1]), evs[|evs| - 1])
  }

  /** The frame a step forwards, if it forwards one. */
  function Forwards(key: SubKey, e: Entry, ev: KeyEvent): seq<Msg> {
    match ev
    case Arrive(m, now) => if Ruled(key, e, m, now).deliver then [m] else []
    case _ => []
  }

  /** What a step puts before client `c`. */
  function Offers(key: SubKey, e: Entry, ev: KeyEvent, c: nat): seq<Msg> {
    match ev
    case Arrive(m, now) => if c in e.subscribers then Forwards(key, e, ev) else []
    case Answer(d, snapshot) => if d == c then AnswerFor(key, e, c, snapshot) else []
    case _ => []
  }

  function Forwarded(key: SubKey, e: Entry, evs: seq<KeyEvent>): seq<Msg> {
    if evs == [] then []
    else
      var k := |evs| - 1;
      Forwarded(key, e, evs[..k]) + Forwards(key, Run(key, e, evs[..k]), evs[k])
  }

  function Stream(key: SubKey, e: Entry, evs: seq<KeyEvent>, c: nat): seq<Msg> {
    if evs == [] then []
    else
      var k := |evs| - 1;
      Stream(key, e, evs[..k], c) + Offers(key, Run(key, e, evs[..k]), evs[k], c)
  }

  ghost predicate LegalRun(key: SubKey, e: Entry, evs: seq<KeyEvent>) {
    forall i :: 0 <= i < |evs| ==> Legal(key, Run(key, e, evs[..i]), evs[i])
  }

  lemma LegalPrefix(key: SubKey, e: Entry, evs: seq<KeyEvent>, n: nat)
    requires LegalRun(key, e, evs) && n <= |evs|
    ensures LegalRun(key, e, evs[..n])
  {
    forall i | 0 <= i < n ensures Legal(key, Run(key, e, evs[..n][..i]), evs[..n][i]) {
      assert evs[..n][..i] == evs[..i];
    }
  }

  /** Well-formedness holds along every legal run. */
  lemma {:induction false} RunKeepsWellFormed(key: SubKey, e: Entry, evs: seq<KeyEvent>)
    requires WellFormed(key, e) && LegalRun(key, e, evs)
    ensures WellFormed(key, Run(key, e, evs))
  {
    hide KeyStep, WellFormed;
    if evs != [] {
      var k := |evs| - 1;
      LegalPrefix(key, e, evs, k);
      RunKeepsWellFormed(key, e, evs[..k]);
      StepKeepsWellFormed(key, Run(key, e, evs[..k]), evs[k]);
    }
  }

  lemma {:induction false} RunSplit(key: SubKey, e: Entry, a: seq<KeyEvent>, b: seq<KeyEvent>)
    ensures Run(key, e, a + b) == Run(key, Run(key, e, a), b)
  {
    hide KeyStep, Offers, Forwards;
    if b == [] {
      assert a + b == a;
    } else {
      var k := |b| - 1;
      assert (a + b)[..|a| + k] == a + b[..k];
      RunSplit(key, e, a, b[..k]);
    }
  }

  lemma {:induction false} StreamSplit(key: SubKey, e: Entry, a: seq<KeyEvent>, b: seq<KeyEvent>, c: nat)
    ensures Stream(key, e, a + b, c) == Stream(key, e, a, c) + Stream(key, Run(key, e, a), b, c)
  {
    hide KeyStep, Offers, Forwards;
    if b == [] {
      assert a + b == a;
    } else {
      var k := |b| - 1;
      assert (a + b)[..|a| + k] == a + b[..k];
      StreamSplit(key, e, a, b[..k], c);
      RunSplit(key, e, a, b[..k]);
    }
  }

  lemma {:induction false} ForwardedSplit(key: SubKey, e: Entry, a: seq<KeyEvent>, b: seq<KeyEvent>)
    ensures Forwarded(key, e, a + b) == Forwarded(key, e, a) + Forwarded(key, Run(key, e, a), b)
  {
    hide KeyStep, Offers, Forwards;
    if b == [] {
      assert a + b == a;
    } else {
      var k := |b| - 1;
      assert (a + b)[..|a| + k] == a + b[..k];
      ForwardedSplit(key, e, a, b[..k]);
      RunSplit(key, e, a, b[..k]);
    }
  }

  lemma LegalSplit(key: SubKey, e: Entry, a: seq<KeyEvent>, b: seq<KeyEvent>)
    requires LegalRun(key, e, a + b)
    ensures LegalRun(key, e, a) && LegalRun(key, Run(key, e, a), b)
  {
    LegalPrefix(key, e, a + b, |a|);
    assert (a + b)[..|a|] == a;
    forall i | 0 <= i < |b| ensures Legal(key, Run(key, Run(key, e, a), b[..i]), b[i]) {
      assert (a + b)[..|a| + i] == a + b[..i];
      RunSplit(key, e, a, b[..i]);
    }
  }

  /** A run that starts with a step is that step and then the rest. */
  lemma FirstStep(key: SubKey, e: Entry, ev: KeyEvent, rest: seq<KeyEvent>, c: nat)
    ensures var n := KeyStep(key, e, ev);
            && Run(key, e, [ev] + rest) == Run(key, n, rest)
            && Stream(key, e, [ev] + rest, c) == Offers(key, e, ev, c) + Stream(key, n, rest, c)
            && Forwarded(key, e, [ev] + rest) == Forwards(key, e, ev) + Forwarded(key, n, rest)
            && (Legal(key, e, ev) && LegalRun(key, n, rest) ==> LegalRun(key, e, [ev] + rest))
  {
    hide KeyStep, Offers, Forwards, Legal, LegalRun;
    assert [ev][..0] == [];
    RunSplit(key, e, [ev], rest);
    StreamSplit(key, e, [ev], rest, c);
    ForwardedSplit(key, e, [ev], rest);
    if Legal(key, e, ev) && LegalRun(key, KeyStep(key, e, ev), rest) {
      LegalFirst(key, e, ev, rest);
    }
  }

  lemma LegalFirst(key: SubKey, e: Entry, ev: KeyEvent, rest: seq<KeyEvent>)
    requires Legal(key, e, ev) && LegalRun(key, KeyStep(key, e, ev), rest)
    ensures LegalRun(key, e, [ev] + rest)
  {
    hide KeyStep, Legal;
    var evs := [ev] + rest;
    assert [ev][..0] == [];
    forall i | 0 <= i < |evs| ensures Legal(key, Run(key, e, evs[..i]), evs[i]) {
      if i > 0 {
        assert evs[..i] == [ev] + rest[..i - 1];
        RunSplit(key, e, [ev], rest[..i - 1]);
      }
    }
  }

  lemma LegalJoin(key: SubKey, e: Entry, a: seq<KeyEvent>, b: seq<KeyEvent>)
    requires LegalRun(key, e, a) && LegalRun(key, Run(key, e, a), b)
    ensures LegalRun(key, e, a + b)
  {
    hide Legal;
    forall i | 0 <= i < |a + b| ensures Legal(key, Run(key, e, (a + b)[..i]), (a + b)[i]) {
      if i < |a| {
        assert (a + b)[..i] == a[..i];
      } else {
        assert (a + b)[..i] == a + b[..i - |a|];
        RunSplit(key, e, a, b[..i - |a|]);
      }
    }
  }

  lemma NothingRuns(key: SubKey, e: Entry, c: nat)
    ensures Run(key, e, []) == e && LegalRun(key, e, [])
    ensures Stream(key, e, [], c) == [] && Forwarded(key, e, []) == []
  {
  }

  /** Two steps in a row. */
  lemma TwoSteps(key: SubKey, e: Entry, a: KeyEvent, b: KeyEvent, c: nat)
    ensures var n := KeyStep(key, e, a);
            && Run(key, e, [a, b]) == KeyStep(key, n, b)
            && Stream(key, e, [a, b], c) == Offers(key, e, a, c) + Offers(key, n, b, c)
            && Forwarded(key, e, [a, b]) == Forwards(key, e, a) + Forwards(key, n, b)
            && (Legal(key, e, a) && Legal(key, n, b) ==> LegalRun(key, e, [a, b]))
  {
    hide KeyStep, Offers, Forwards, Legal, LegalRun, Run, Stream, Forwarded;
    var n := KeyStep(key, e, a);
    FirstStep(key, e, a, [b], c);
    FirstStep(key, n, b, [], c);
    NothingRuns(key, KeyStep(key, n, b), c);
    assert [a] + [b] == [a, b] && [b] + [] == [b];
  }

  // ---------- Staying attached ----------

  /** The step parks every attached client: the source leading an incremental channel is lost. */
  predicate Parks(key: SubKey, e: Entry, ev: KeyEvent) {
    ev.Lost? && key.IsIncremental() && LedBy(e, ev.source)
  }

  /** The client neither leaves nor is parked along the run. */
  ghost predicate Undisturbed(key: SubKey, e: Entry, evs: seq<KeyEvent>, c: nat) {
    forall i :: 0 <= i < |evs| ==> evs[i] != Leave(c) && !Parks(key, Run(key, e, evs[..i]), evs[i])
  }

  lemma UndisturbedPrefix(key: SubKey, e: Entry, evs: seq<KeyEvent>, n: nat, c: nat)
    requires Undisturbed(key, e, evs, c) && n <= |evs|
    ensures Undisturbed(key, e, evs[..n], c)
  {
    forall i | 0 <= i < n
      ensures evs[..n][i] != Leave(c) && !Parks(key, Run(key, e, evs[..n][..i]), evs[..n][i])
    {
      assert evs[..n][..i] == evs[..i];
    }
  }

  lemma SubscriberIsNotParked(key: SubKey, e: Entry, c: nat)
    requires WellFormed(key, e) && c in e.subscribers
    ensures !IsParked(e.pending, c)
  {
    ParkedIff(e.pending, c);
    assert multiset(Listed(e))[c] <= 1;
    assert c in multiset(e.subscribers);
  }

  lemma LeaveKeepsOthers(e: Entry, d: nat, c: nat)
    requires c in e.subscribers && d != c
    ensures c in LeaveEntry(e, d).subscribers
  {
    hide Without, WithoutPending;
    WithoutExactly(e.subscribers, d);
    assert c in multiset(e.subscribers);
    assert c in multiset(Without(e.subscribers, d));
  }

  lemma StepKeepsSubscribed(key: SubKey, e: Entry, ev: KeyEvent, c: nat)
    requires c in e.subscribers && ev != Leave(c) && !Parks(key, e, ev)
    ensures c in KeyStep(key, e, ev).subscribers
  {
    hide LeaveEntry, Ruled, Kept, HeldFor, Removed, Parking, IsParked;
    if ev.Leave? {
      LeaveKeepsOthers(e, ev.client, c);
    }
  }

  lemma StepKeepsAttached(key: SubKey, e: Entry, ev: KeyEvent, c: nat)
    requires WellFormed(key, e) && c in e.subscribers
    requires ev != Leave(c) && !Parks(key, e, ev)
    ensures c in KeyStep(key, e, ev).subscribers
    ensures Offers(key, e, ev, c) == Forwards(key, e, ev)
  {
    hide WellFormed, KeyStep, Ruled, Parks, Removed;
    StepKeepsSubscribed(key, e, ev, c);
    SubscriberIsNotParked(key, e, c);
  }

  /** No silent hole while attached: a client that neither leaves nor is parked stays attached, and
      is offered every frame forwarded meanwhile, in order, and nothing else. */
  lemma {:induction false} AttachedHearsEverything(key: SubKey, e: Entry, evs: seq<KeyEvent>, c: nat)
    requires WellFormed(key, e) && LegalRun(key, e, evs)
    requires c in e.subscribers && Undisturbed(key, e, evs, c)
    ensures c in Run(key, e, evs).subscribers
    ensures Stream(key, e, evs, c) == Forwarded(key, e, evs)
  {
    hide KeyStep, Offers, Forwards, WellFormed;
    if evs != [] {
      var k := |evs| - 1;
      LegalPrefix(key, e, evs, k);
      UndisturbedPrefix(key, e, evs, k, c);
      AttachedHearsEverything(key, e, evs[..k], c);
      RunKeepsWellFormed(key, e, evs[..k]);
      StepKeepsAttached(key, Run(key, e, evs[..k]), evs[k], c);
    }
  }

  // ---------- Waiting for a snapshot ----------

  predicate Concerns(ev: KeyEvent, c: nat) {
    match ev
    case Join(d) => d == c
    case Leave(d) => d == c
    case Answer(d, _) => d == c
    case GiveUp(d) => d == c
    case _ => false
  }

  /** The frames held behind a waiting client. */
  function HeldBehind(e: Entry, c: nat): seq<Msg>
    requires IsParked(e.pending, c)
  {
    e.pending[Position(e.pending, c)].held
  }

  lemma {:induction false} PositionAppend(p: seq<Pending>, q: seq<Pending>, c: nat)
    requires IsParked(p, c)
    ensures Position(p + q, c) == Position(p, c)
  {
    if p[0].client != c {
      assert (p + q)[1..] == p[1..] + q;
      PositionAppend(p[1..], q, c);
    }
  }

  lemma NoRepeatsAt(s: seq<nat>, i: nat, j: nat)
    requires NoRepeats(s) && i < j < |s|
    ensures s[i] != s[j]
  {
    assert s == s[..i] + [s[i]] + s[i + 1..];
    assert s[i + 1..][j - i - 1] == s[j];
    assert s[j] in multiset(s[i + 1..]);
    assert multiset(s)[s[i]] <= 1;
  }

  /** The one place of a client in a list where nobody is listed twice. */
  lemma PlaceIsUnique(p: seq<Pending>, c: nat, x: Pending)
    requires NoRepeats(ClientsOf(p)) && x in p && x.client == c
    ensures IsParked(p, c) && p[Position(p, c)] == x
  {
    var i :| 0 <= i < |p| && p[i] == x;
    var j := Position(p, c);
    assert j <= i;
    if j < i {
      NoRepeatsAt(ClientsOf(p), j, i);
    }
  }

  lemma PendingNoRepeats(key: SubKey, e: Entry)
    requires WellFormed(key, e)
    ensures NoRepeats(ClientsOf(e.pending))
  {
    FewerNoRepeats(Listed(e), ClientsOf(e.pending));
  }

  /** A client still waiting after others were taken off the list kept its place as it was. */
  lemma ShorterListKeepsPlace(p: seq<Pending>, q: seq<Pending>, c: nat)
    requires NoRepeats(ClientsOf(p)) && IsParked(q, c)
    requires forall x <- q :: x in p
    ensures IsParked(p, c) && q[Position(q, c)] == p[Position(p, c)]
  {
    PlaceIsUnique(p, c, q[Position(q, c)]);
  }

  lemma LeaveKeepsWaiting(e: Entry, d: nat, c: nat)
    requires NoRepeats(ClientsOf(e.pending)) && IsParked(LeaveEntry(e, d).pending, c)
    ensures IsParked(e.pending, c) && HeldBehind(LeaveEntry(e, d), c) == HeldBehind(e, c)
  {
    WithoutPendingClients(e.pending, d);
    ShorterListKeepsPlace(e.pending, LeaveEntry(e, d).pending, c);
  }

  lemma RemovalKeepsWaiting(p: seq<Pending>, i: nat, c: nat)
    requires NoRepeats(ClientsOf(p)) && i < |p| && IsParked(Removed(p, i), c)
    ensures IsParked(p, c) && Removed(p, i)[Position(Removed(p, i), c)] == p[Position(p, c)]
  {
    ShorterListKeepsPlace(p, Removed(p, i), c);
  }

  /** Every step that keeps a waiting client waiting adds to its backlog just what it forwards. */
  lemma StepKeepsWaiting(key: SubKey, e: Entry, ev: KeyEvent, c: nat)
    requires WellFormed(key, e) && Legal(key, e, ev) && key.IsIncremental()
    requires IsParked(e.pending, c) && !Concerns(ev, c)
    requires IsParked(KeyStep(key, e, ev).pending, c)
    ensures HeldBehind(KeyStep(key, e, ev), c) == HeldBehind(e, c) + Forwards(key, e, ev)
    ensures Offers(key, e, ev, c) == []
  {
    hide UpdateEntry, LeaveEntry, Removed;
    PendingNoRepeats(key, e);
    if c in e.subscribers {
      SubscriberIsNotParked(key, e, c);
    }
    hide WellFormed, NoRepeats;
    match ev
    case Join(d) =>
      PositionAppend(e.pending, [Pending(d, [], 0)], c);
    case Leave(d) =>
      LeaveKeepsWaiting(e, d, c);
    case Pin =>
    case Arrive(m, now) =>
      ArriveKeepsWaiting(key, e, m, now, c);
    case Answer(d, _) =>
      if IsParked(e.pending, d) {
        RemovalKeepsWaiting(e.pending, Position(e.pending, d), c);
      }
    case Lost(s) =>
      PositionAppend(e.pending, Parking(e.subscribers), c);
    case GiveUp(d) =>
      if IsParked(e.pending, d) {
        RemovalKeepsWaiting(e.pending, Position(e.pending, d), c);
      }
  }

  lemma ArriveKeepsWaiting(key: SubKey, e: Entry, m: Msg, now: nat, c: nat)
    requires WellFormed(key, e) && Routable(key, m.ord) && key.IsIncremental()
    requires IsParked(e.pending, c) && IsParked(UpdateEntry(key, e, m, now).pending, c)
    ensures HeldBehind(UpdateEntry(key, e, m, now), c) == HeldBehind(e, c) + Forwards(key, e, Arrive(m, now))
  {
    var n := UpdateEntry(key, e, m, now);
    if Ruled(key, e, m, now).deliver {
      var all := HoldAll(e.pending, m);
      KeptExactly(all);
      PendingNoRepeats(key, e);
      var y := n.pending[Position(n.pending, c)];
      assert y in all;
      var i :| 0 <= i < |all| && all[i] == y;
      PlaceIsUnique(e.pending, c, e.pending[i]);
    }
  }

  ghost predicate Unconcerned(evs: seq<KeyEvent>, c: nat) {
    forall ev <- evs :: !Concerns(ev, c)
  }

  lemma FewerParked(p: seq<Pending>, q: seq<Pending>, c: nat)
    requires IsParked(q, c)
    requires multiset(ClientsOf(q)) <= multiset(ClientsOf(p))
    ensures IsParked(p, c)
  {
    ParkedIff(p, c);
    ParkedIff(q, c);
    assert c in multiset(ClientsOf(q));
  }

  lemma TakenOffShrinks(p: seq<Pending>, d: nat)
    requires IsParked(p, d)
    ensures multiset(ClientsOf(Removed(p, Position(p, d)))) <= multiset(ClientsOf(p))
  {
    RemovedClients(p, Position(p, d));
  }

  lemma LeaveShrinks(e: Entry, d: nat)
    ensures multiset(ClientsOf(LeaveEntry(e, d).pending)) <= multiset(ClientsOf(e.pending))
  {
    WithoutPendingClients(e.pending, d);
    WithoutExactly(ClientsOf(e.pending), d);
  }

  lemma ArriveShrinks(key: SubKey, e: Entry, m: Msg, now: nat)
    ensures multiset(ClientsOf(UpdateEntry(key, e, m, now).pending)) <= multiset(ClientsOf(e.pending))
  {
    KeptClients(HoldAll(e.pending, m));
    assert ClientsOf(HoldAll(e.pending, m)) == ClientsOf(e.pending);
  }

  /** Apart from joining and parking, no step puts anyone on the waiting list. */
  lemma WaitingListShrinks(key: SubKey, e: Entry, ev: KeyEvent)
    requires !ev.Join? && !Parks(key, e, ev)
    ensures multiset(ClientsOf(KeyStep(key, e, ev).pending)) <= multiset(ClientsOf(e.pending))
  {
    hide UpdateEntry, LeaveEntry, Removed;
    match ev
    case Leave(d) =>
      LeaveShrinks(e, d);
    case Pin =>
    case Arrive(m, now) =>
      ArriveShrinks(key, e, m, now);
    case Answer(d, _) =>
      if IsParked(e.pending, d) {
        TakenOffShrinks(e.pending, d);
      }
    case Lost(s) =>
    case GiveUp(d) =>
      if IsParked(e.pending, d) {
        TakenOffShrinks(e.pending, d);
      }
  }

  lemma JoinAddsOnlyTheJoiner(key: SubKey, e: Entry, d: nat, c: nat)
    requires d != c && IsParked(JoinEntry(key, e, d).pending, c)
    ensures IsParked(e.pending, c)
  {
    var n := JoinEntry(key, e, d);
    if n.pending != e.pending {
      ParkedIff(e.pending, c);
      ParkedIff(n.pending, c);
      assert ClientsOf(n.pending) == ClientsOf(e.pending) + [d];
    }
  }

  lemma WaitingBackwards(key: SubKey, e: Entry, ev: KeyEvent, c: nat)
    requires !Concerns(ev, c) && !Parks(key, e, ev)
    requires IsParked(KeyStep(key, e, ev).pending, c)
    ensures IsParked(e.pending, c)
  {
    if ev.Join? {
      JoinAddsOnlyTheJoiner(key, e, ev.client, c);
    } else {
      WaitingListShrinks(key, e, ev);
      hide KeyStep;
      FewerParked(e.pending, KeyStep(key, e, ev).pending, c);
    }
  }

  ghost predicate NeverParks(key: SubKey, e: Entry, evs: seq<KeyEvent>) {
    forall i :: 0 <= i < |evs| ==> !Parks(key, Run(key, e, evs[..i]), evs[i])
  }

  lemma NeverParksPrefix(key: SubKey, e: Entry, evs: seq<KeyEvent>, n: nat)
    requires NeverParks(key, e, evs) && n <= |evs|
    ensures NeverParks(key, e, evs[..n])
  {
    hide Run, Parks;
    forall i | 0 <= i < n ensures !Parks(key, Run(key, e, evs[..n][..i]), evs[..n][i]) {
      assert evs[..n][..i] == evs[..i];
    }
  }

  /** A client waits through a run and is still waiting at its end: everything forwarded meanwhile is
      held behind it, in order, and it was offered nothing. */
  lemma {:induction false} WaitingHoldsEverything(key: SubKey, e: Entry, evs: seq<KeyEvent>, c: nat)
    requires WellFormed(key, e) && LegalRun(key, e, evs) && key.IsIncremental()
    requires Unconcerned(evs, c) && IsParked(e.pending, c)
    requires NeverParks(key, e, evs)
    requires IsParked(Run(key, e, evs).pending, c)
    ensures HeldBehind(Run(key, e, evs), c) == HeldBehind(e, c) + Forwarded(key, e, evs)
    ensures Stream(key, e, evs, c) == []
  {
    hide KeyStep, Offers, Forwards, WellFormed, Legal, Concerns, Parks;
    if evs != [] {
      var k := |evs| - 1;
      var before := Run(key, e, evs[..k]);
      LegalPrefix(key, e, evs, k);
      NeverParksPrefix(key, e, evs, k);
      RunKeepsWellFormed(key, e, evs[..k]);
      assert evs[k] in evs;
      WaitingBackwards(key, before, evs[k], c);
      WaitingHoldsEverything(key, e, evs[..k], c);
      StepKeepsWaiting(key, before, evs[k], c);
    }
  }

  /** A newcomer comes behind everyone: nobody listed before it moves, and it is listed once, among those
      waiting exactly when it joins an incremental stream already running. */
  lemma JoinGoesLast(key: SubKey, e: Entry, c: nat)
    requires c !in Listed(e)
    ensures var n := KeyStep(key, e, Join(c));
            && e.subscribers <= n.subscribers && e.pending <= n.pending
            && |n.subscribers| + |n.pending| == |e.subscribers| + |e.pending| + 1
            && (IsParked(n.pending, c) <==> e.upstream && (key.L4Book? || key.L2Diff?))
            && (c in n.subscribers <==> !IsParked(n.pending, c))
            && n.arb == e.arb && n.upstream && n.pinned == e.pinned
  {
    ParkedIff(e.pending, c);
    ParkedIff(KeyStep(key, e, Join(c)).pending, c);
    assert ClientsOf(e.pending + [Pending(c, [], 0)]) == ClientsOf(e.pending) + [c];
  }

  // ---------- Overflowing ----------

  /** A waiting client is evicted exactly when the frame is to be held behind it and what is held would come
      to more than 64 MiB. */
  lemma EvictedIff(key: SubKey, e: Entry, m: Msg, now: nat, c: nat)
    requires WellFormed(key, e) && (key.L4Book? || key.L2Diff?) && Routable(key, m.ord)
    ensures c in Evicted(key, e, m, now) <==>
              && Ruled(key, e, m, now).deliver && IsParked(e.pending, c)
              && TotalLen(HeldBehind(e, c)) + m.payload.len > 64 * 1024 * 1024
  {
    hide Ruled, TotalLen;
    if Ruled(key, e, m, now).deliver {
      var all := HoldAll(e.pending, m);
      KeptExactly(all);
      PendingNoRepeats(key, e);
      ParkedIff(e.pending, c);
      if x :| x in all && x.client == c && x.bytes > PENDING_MAX_BYTES {
        var i :| 0 <= i < |all| && all[i] == x;
        assert ClientsOf(e.pending)[i] == c;
        PlaceIsUnique(e.pending, c, e.pending[i]);
        assert Bounded(e.pending[i]);
      }
      if IsParked(e.pending, c) {
        var i := Position(e.pending, c);
        assert all[i] in all && Bounded(e.pending[i]);
      }
    }
  }

  // ---------- Answering ----------

  lemma {:induction false} BacklogSplit(a: seq<Msg>, b: seq<Msg>, height: nat, single: bool, src: nat)
    ensures Backlog(a + b, height, single, src)
         == Backlog(a, height, single, src) + Backlog(b, height, single, src)
  {
    if b == [] {
      assert a + b == a;
    } else {
      assert (a + b)[..|a + b| - 1] == a + b[..|b| - 1];
      BacklogSplit(a, b[..|b| - 1], height, single, src);
    }
  }

  lemma BacklogAround(a: seq<Msg>, m: Msg, b: seq<Msg>, height: nat, single: bool, src: nat)
    ensures Backlog(a + [m] + b, height, single, src)
         == Backlog(a, height, single, src)
          + (if m.ord.stamp > height && (single ==> m.src == src) then [m] else [])
          + Backlog(b, height, single, src)
  {
    BacklogSplit(a + [m], b, height, single, src);
    BacklogSplit(a, [m], height, single, src);
    BacklogOfOne(m, height, single, src);
    hide Backlog;
  }

  lemma BacklogOfOne(m: Msg, height: nat, single: bool, src: nat)
    ensures Backlog([m], height, single, src) == if m.ord.stamp > height && (single ==> m.src == src) then [m] else []
  {
    assert [m][..0] == [];
  }

  /** What an answered client is sent: its snapshot, and then what was held above it, in order; on the
      channels one source carries only that source's, whoever sent the rest. */
  lemma AnsweredExactly(key: SubKey, e: Entry, c: nat, snapshot: Msg, a: seq<Msg>, m: Msg, b: seq<Msg>)
    requires IsParked(e.pending, c) && HeldBehind(e, c) == a + [m] + b
    ensures var (h, single) := (snapshot.ord.stamp, key.L2Book? || key.L2Diff?);
            Offers(key, e, Answer(c, snapshot), c)
              == [snapshot] + Backlog(a, h, single, snapshot.src)
               + (if m.ord.stamp > h && (single ==> m.src == snapshot.src) then [m] else [])
               + Backlog(b, h, single, snapshot.src)
  {
    hide Backlog, Position;
    BacklogAround(a, m, b, snapshot.ord.stamp, key.SingleSourced(), snapshot.src);
  }
}
