/** Nobody is left waiting: whoever waits for a snapshot has a fetch under way, over everything the
program does. */
module Stranded {
  import opened Wire
  import opened Arbiter
  import opened Entries
  import opened Streams
  import opened Registry
  import opened Membership

  /** The fetches spawned and not yet finished. */
  type Fetches = multiset<(SubKey, nat)>

  ghost predicate NobodyStranded(w: World, fetches: Fetches) {
    forall k, c :: IsParked(Lookup(w, k).pending, c) ==> fetches[(k, c)] > 0
  }

  // ---------- One entry ----------

  /** A step that neither joins nor parks anyone leaves nobody waiting who was not. */
  lemma OnlyJoiningAndParking(k: SubKey, e: Entry, evs: seq<KeyEvent>, c: nat)
    requires evs != [] ==> !evs[0].Join? && !Parks(k, e, evs[0])
    requires IsParked(Moved(k, e, evs).pending, c)
    ensures IsParked(e.pending, c)
  {
    if evs != [] {
      WaitingListShrinks(k, e, evs[0]);
      hide KeyStep, Parks;
      FewerParked(e.pending, KeyStep(k, e, evs[0]).pending, c);
    }
  }

  lemma JoinParks(k: SubKey, e: Entry, d: nat, c: nat)
    requires IsParked(JoinEntry(k, e, d).pending, c)
    ensures IsParked(e.pending, c) || (c == d && e.upstream && k.IsIncremental())
  {
    if c != d {
      JoinAddsOnlyTheJoiner(k, e, d, c);
    }
  }

  lemma LossParks(k: SubKey, e: Entry, s: nat, c: nat)
    requires IsParked(LoseEntry(k, e, s).pending, c)
    ensures IsParked(e.pending, c) || c in Orphaned(k, e, s)
  {
    ParkedIff(e.pending, c);
    ParkedIff(LoseEntry(k, e, s).pending, c);
    if LedBy(e, s) && k.IsIncremental() {
      assert ClientsOf(LoseEntry(k, e, s).pending) == ClientsOf(e.pending) + e.subscribers;
    }
  }

  /** Taking a waiting client off the list ends its wait: it was on it once. */
  lemma TakenOffIsGone(k: SubKey, e: Entry, c: nat)
    requires WellFormed(k, e) && IsParked(e.pending, c)
    ensures !IsParked(Removed(e.pending, Position(e.pending, c)), c)
  {
    var i := Position(e.pending, c);
    RemovedClients(e.pending, i);
    PendingNoRepeats(k, e);
    ParkedIff(Removed(e.pending, i), c);
    assert multiset(ClientsOf(e.pending))[c] <= 1;
  }

  // ---------- The registry ----------

  lemma QuietStrandsNobody(w: World, ev: Event, fetches: Fetches)
    requires NobodyStranded(w, fetches) && !ev.Subscribe? && !ev.LoseSource?
    ensures NobodyStranded(Next(w, ev), fetches)
  {
    hide Next, Lookup, IsParked, Moved;
    forall k, c | IsParked(Lookup(Next(w, ev), k).pending, c) ensures fetches[(k, c)] > 0 {
      MovedView(w, ev, k);
      ProjectsNoJoin(w, ev, k);
      OnlyJoiningAndParking(k, Lookup(w, k), Project(w, ev, k), c);
    }
  }

  lemma MovedView(w: World, ev: Event, k: SubKey)
    ensures Lookup(Next(w, ev), k) == Moved(k, Lookup(w, k), Project(w, ev, k))
  {
    hide *;
    if ev.Subscribe? || ev.Unsubscribe? || ev.Cleanup? {
      ClientView(w, ev, k);
    } else {
      SourceView(w, ev, k);
    }
  }

  lemma ProjectsNoJoin(w: World, ev: Event, k: SubKey)
    requires !ev.Subscribe? && !ev.LoseSource?
    ensures Project(w, ev, k) != [] ==>
              !Project(w, ev, k)[0].Join? && !Parks(k, Lookup(w, k), Project(w, ev, k)[0])
  {
    hide Enabled, Lookup;
  }

  /** A subscribe needs a fetch exactly when the client joined an incremental stream already running. */
  predicate NeedsFetch(w: World, c: nat, key: SubKey)
    requires c in w.peers
  {
    SubscribeOutcome(w, c, key).JoinedRunning? && key.IsIncremental()
  }

  lemma SubscribeStrandsNobody(w: World, c: nat, key: SubKey, fetches: Fetches)
    requires NobodyStranded(w, fetches) && c in w.peers
    ensures NobodyStranded(Subscribed(w, c, key),
                           if NeedsFetch(w, c, key) then fetches + multiset{(key, c)} else fetches)
  {
    hide IsParked, JoinEntry;
    var n := Subscribed(w, c, key);
    forall k, d | IsParked(Lookup(n, k).pending, d)
      ensures (if NeedsFetch(w, c, key) then fetches + multiset{(key, c)} else fetches)[(k, d)] > 0
    {
      if k == key && key !in w.peers[c].keys {
        JoinParks(k, Lookup(w, k), c, d);
      } else {
        assert Lookup(n, k) == Lookup(w, k);
      }
    }
  }

  /** A subscribe needs a fetch exactly when it leaves the client waiting who was not before. */
  lemma NeedsFetchIff(w: World, c: nat, key: SubKey)
    requires RegistryInv(w) && c in w.peers
    ensures NeedsFetch(w, c, key) <==>
              IsParked(Lookup(Subscribed(w, c, key), key).pending, c) && !IsParked(Lookup(w, key).pending, c)
  {
    var e := Lookup(w, key);
    hide KeyInv, Lookup, JoinEntry, Listed, IsParked;
    assert KeyInv(key, e, Holders(w, key), HungUp(w));
    if key !in w.peers[c].keys {
      assert Lookup(Subscribed(w, c, key), key) == JoinEntry(key, e, c) by { SubscribedLooksUp(w, c, key); }
      NotHeldNotListed(w, c, key);
      ParkedAreListed(e, c);
      JoinParksIff(key, e, c);
    }
  }

  lemma SubscribedLooksUp(w: World, c: nat, key: SubKey)
    requires c in w.peers && key !in w.peers[c].keys
    ensures Lookup(Subscribed(w, c, key), key) == JoinEntry(key, Lookup(w, key), c)
  {
    hide JoinEntry;
  }

  lemma NotHeldNotListed(w: World, c: nat, key: SubKey)
    requires RegistryInv(w) && c in w.peers && key !in w.peers[c].keys
    ensures c !in Listed(Lookup(w, key))
  {
    hide Lookup, WellFormed, Listed;
    assert KeyInv(key, Lookup(w, key), Holders(w, key), HungUp(w));
  }

  lemma JoinParksIff(k: SubKey, e: Entry, c: nat)
    requires c !in Listed(e) && !IsParked(e.pending, c)
    ensures IsParked(JoinEntry(k, e, c).pending, c) <==> e.upstream && k.IsIncremental()
  {
    ParkedIff(JoinEntry(k, e, c).pending, c);
    ParkedIff(e.pending, c);
    assert ClientsOf(e.pending + [Pending(c, [], 0)]) == ClientsOf(e.pending) + [c];
  }

  /** Each client a loss parks is in the work it returns. */
  lemma LossStrandsNobody(w: World, s: nat, work: seq<(SubKey, nat)>, fetches: Fetches)
    requires NobodyStranded(w, fetches)
    requires forall k, c :: multiset(work)[(k, c)] == multiset(Orphaned(k, Lookup(w, k), s))[c]
    ensures NobodyStranded(SourceLost(w, s), fetches + multiset(work))
  {
    hide IsParked, LoseEntry, Orphaned;
    var n := SourceLost(w, s);
    forall k, c | IsParked(Lookup(n, k).pending, c) ensures (fetches + multiset(work))[(k, c)] > 0 {
      EmptyEntryLoses(k, s);
      LossParks(k, Lookup(w, k), s, c);
      assert c in Orphaned(k, Lookup(w, k), s) ==> c in multiset(Orphaned(k, Lookup(w, k), s));
    }
  }

  function Finished(w: World, key: SubKey, c: nat, answer: Option<Msg>): World {
    match answer
    case Some(m) => Answered(w, key, c, m)
    case None => GivenUp(w, key, c)
  }

  function FinishedEntry(key: SubKey, e: Entry, c: nat, answer: Option<Msg>): Entry {
    match answer
    case Some(m) => AnswerEntry(key, e, c, m)
    case None => GiveUpEntry(e, c)
  }

  /** A finished fetch leaves its client not waiting, however it ended, so it is not missed. */
  lemma FinishedFetchStrandsNobody(w: World, key: SubKey, c: nat, answer: Option<Msg>, fetches: Fetches)
    requires RegistryInv(w) && NobodyStranded(w, fetches)
    ensures NobodyStranded(Finished(w, key, c, answer), fetches - multiset{(key, c)})
  {
    var n := Finished(w, key, c, answer);
    hide IsParked, Finished, FinishedEntry, RegistryInv, Lookup;
    forall k, d | IsParked(Lookup(n, k).pending, d) ensures (fetches - multiset{(key, c)})[(k, d)] > 0 {
      FinishedView(w, key, c, answer, k);
      if k == key {
        NoLongerWaiting(w, key, c, answer, d);
      }
    }
  }

  lemma FinishedView(w: World, key: SubKey, c: nat, answer: Option<Msg>, k: SubKey)
    requires RegistryInv(w)
    ensures Lookup(Finished(w, key, c, answer), k)
         == if k == key then FinishedEntry(k, Lookup(w, k), c, answer) else Lookup(w, k)
  {
    hide AnswerEntry, GiveUpEntry, Answered, GivenUp, Lookup, RegistryInv;
    if answer.Some? {
      AnsweredView(w, key, c, answer.value, k);
    } else {
      GivenUpView(w, key, c, k);
    }
    if c !in w.peers {
      StrangerNotParked(w, key, c);
      NotParkedStays(key, Lookup(w, key), c, answer);
    }
  }

  lemma ParkedAreListed(e: Entry, c: nat)
    ensures IsParked(e.pending, c) ==> c in Listed(e)
  {
    ParkedIff(e.pending, c);
  }

  lemma StrangerNotParked(w: World, key: SubKey, c: nat)
    requires RegistryInv(w) && c !in w.peers
    ensures !IsParked(Lookup(w, key).pending, c)
  {
    hide Lookup, WellFormed, IsParked;
    var e := Lookup(w, key);
    assert KeyInv(key, e, Holders(w, key), HungUp(w));
    ParkedAreListed(e, c);
  }

  lemma NotParkedStays(key: SubKey, e: Entry, c: nat, answer: Option<Msg>)
    requires !IsParked(e.pending, c)
    ensures FinishedEntry(key, e, c, answer) == e
  {
  }

  lemma NoLongerWaiting(w: World, key: SubKey, c: nat, answer: Option<Msg>, d: nat)
    requires RegistryInv(w)
    requires IsParked(FinishedEntry(key, Lookup(w, key), c, answer).pending, d)
    ensures d != c && IsParked(Lookup(w, key).pending, d)
  {
    hide Lookup, RegistryInv, WellFormed, Removed;
    var e := Lookup(w, key);
    RegistryWellFormed(w, key);
    if IsParked(e.pending, c) {
      TakenOffIsGone(key, e, c);
      TakenOffShrinks(e.pending, c);
      FewerParked(e.pending, Removed(e.pending, Position(e.pending, c)), d);
    }
  }
}
