/** Who is listed where: the registry invariant, over every run of the whole registry. */
module Membership {
  import opened Wire
  import opened Arbiter
  import opened Entries
  import opened Streams
  import opened Registry

  // ---------- One key's view ----------

  function Holders(w: World, key: SubKey): set<nat> {
    set c | c in w.peers && key in w.peers[c].keys
  }

  function HungUp(w: World): set<nat> {
    set c | c in w.peers && w.peers[c].kill
  }

  /** What holds of each key: its entry is well formed; whoever is listed holds the key; whoever holds
      the key is listed or is being hung up; and it is live upstream only for a pin or a holder. */
  ghost predicate KeyInv(key: SubKey, e: Entry, holders: set<nat>, hungUp: set<nat>) {
    && WellFormed(key, e)
    && (forall c <- Listed(e) :: c in holders)
    && (forall c <- holders :: c in Listed(e) || c in hungUp)
    && (e.upstream ==> e.pinned || holders != {})
  }

  /** The change a step of one key makes to who holds it and who must be hung up. */
  ghost predicate KeyChange(key: SubKey, e: Entry, ev: KeyEvent,
                            holders: set<nat>, hungUp: set<nat>, holders': set<nat>, hungUp': set<nat>) {
    && hungUp <= hungUp'
    && match ev
       case Join(c) => c !in holders && holders' == holders + {c}
       case Leave(c) => holders' == holders - {c}
       case Arrive(m, now) =>
         holders' == holders && forall c <- Evicted(key, e, m, now) :: c in hungUp'
       case GiveUp(c) => holders' == holders && (IsParked(e.pending, c) ==> c in hungUp')
       case _ => holders' == holders
  }

  ghost predicate SameListed(e: Entry, n: Entry) {
    forall c :: c in Listed(n) <==> c in Listed(e)
  }

  lemma SameListedKeeps(key: SubKey, e: Entry, n: Entry, holders: set<nat>, hungUp: set<nat>, hungUp': set<nat>)
    requires KeyInv(key, e, holders, hungUp) && hungUp <= hungUp'
    requires WellFormed(key, n) && SameListed(e, n)
    requires n.upstream ==> e.upstream || n.pinned
    requires e.pinned ==> n.pinned
    ensures KeyInv(key, n, holders, hungUp')
  {
    hide WellFormed, Listed;
  }

  lemma SameMultiset(e: Entry, n: Entry)
    requires multiset(Listed(e)) == multiset(Listed(n))
    ensures SameListed(e, n)
  {
    hide Listed;
    forall c ensures c in Listed(n) <==> c in Listed(e) {
      assert c in Listed(n) <==> c in multiset(Listed(n));
    }
  }

  lemma JoinKeeps(key: SubKey, e: Entry, c: nat, holders: set<nat>, hungUp: set<nat>, hungUp': set<nat>)
    requires KeyInv(key, e, holders, hungUp) && hungUp <= hungUp' && c !in holders
    ensures c !in Listed(e)
    ensures KeyInv(key, JoinEntry(key, e, c), holders + {c}, hungUp')
  {
    var n := JoinEntry(key, e, c);
    assert c !in Listed(e);
    StepJoin(key, e, c);
    JoinLists(key, e, c);
    hide WellFormed, Listed, JoinEntry;
    forall x ensures x in Listed(n) <==> x in Listed(e) || x == c {
      assert x in Listed(n) <==> x in multiset(Listed(n));
    }
    assert c in holders + {c};
  }

  lemma UnlistedIff(e: Entry, c: nat, x: nat)
    ensures x in Listed(Unlisted(e, c)) <==> x in Listed(e) && x != c
  {
    UnlistedExactly(e, c);
    hide Listed, Unlisted;
    assert x in Listed(Unlisted(e, c)) <==> x in multiset(Listed(Unlisted(e, c)));
  }

  lemma LeaveKeeps(key: SubKey, e: Entry, c: nat, holders: set<nat>, hungUp: set<nat>, hungUp': set<nat>)
    requires KeyInv(key, e, holders, hungUp) && hungUp <= hungUp'
    ensures KeyInv(key, LeaveEntry(e, c), holders - {c}, hungUp')
  {
    hide WellFormed, Listed, Unlisted;
    var u := Unlisted(e, c);
    StepLeave(key, e, c);
    UnlistedKeepsFlags(e, c);
    forall x ensures x in Listed(u) <==> x in Listed(e) && x != c {
      UnlistedIff(e, c, x);
    }
    NobodyListed(u);
    NobodyListed(EMPTY);
    if !LeaveDrops(e, c) && e.upstream && !e.pinned {
      assert Listed(u)[0] in Listed(u);
      assert Listed(u)[0] in holders - {c};
    }
  }

  lemma UnlistedKeepsFlags(e: Entry, c: nat)
    ensures Unlisted(e, c).upstream == e.upstream && Unlisted(e, c).pinned == e.pinned
  {
  }

  lemma NobodyListed(e: Entry)
    ensures e.subscribers == [] && e.pending == [] <==> Listed(e) == []
  {
    if e.pending != [] {
      assert |ClientsOf(e.pending)| > 0;
    }
  }

  lemma ArriveListed(key: SubKey, e: Entry, m: Msg, now: nat, c: nat)
    ensures c in Listed(UpdateEntry(key, e, m, now)) ==> c in Listed(e)
    ensures c in Listed(e) ==> c in Listed(UpdateEntry(key, e, m, now)) || c in Evicted(key, e, m, now)
  {
    var n := UpdateEntry(key, e, m, now);
    if Ruled(key, e, m, now).deliver && Holds(m.ord) {
      var all := HoldAll(e.pending, m);
      assert ClientsOf(all) == ClientsOf(e.pending);
      KeptSplits(all, c);
    }
  }

  lemma {:induction false} KeptSplits(p: seq<Pending>, c: nat)
    ensures c in ClientsOf(Kept(p)) ==> c in ClientsOf(p)
    ensures c in ClientsOf(p) ==> c in ClientsOf(Kept(p)) || c in Overflowed(p)
  {
    if p != [] {
      var k := |p| - 1;
      KeptSplits(p[..k], c);
      assert ClientsOf(p) == ClientsOf(p[..k]) + [p[k].client];
      if p[k].bytes <= PENDING_MAX_BYTES {
        assert ClientsOf(Kept(p)) == ClientsOf(Kept(p[..k])) + [p[k].client];
      } else {
        assert Kept(p) == Kept(p[..k]);
      }
    }
  }

  lemma ArriveKeeps(key: SubKey, e: Entry, m: Msg, now: nat, holders: set<nat>, hungUp: set<nat>, hungUp': set<nat>)
    requires KeyInv(key, e, holders, hungUp) && hungUp <= hungUp' && Routable(key, m.ord)
    requires forall c <- Evicted(key, e, m, now) :: c in hungUp'
    ensures KeyInv(key, UpdateEntry(key, e, m, now), holders, hungUp')
  {
    var n := UpdateEntry(key, e, m, now);
    StepArrive(key, e, m, now);
    forall c
      ensures c in Listed(n) ==> c in Listed(e)
      ensures c in Listed(e) ==> c in Listed(n) || c in Evicted(key, e, m, now)
    {
      ArriveListed(key, e, m, now, c);
    }
    assert n.upstream == e.upstream && n.pinned == e.pinned;
    hide WellFormed, Listed, UpdateEntry, Evicted;
  }

  lemma GiveUpKeeps(key: SubKey, e: Entry, c: nat, holders: set<nat>, hungUp: set<nat>, hungUp': set<nat>)
    requires KeyInv(key, e, holders, hungUp) && hungUp <= hungUp'
    requires IsParked(e.pending, c) ==> c in hungUp'
    ensures KeyInv(key, GiveUpEntry(e, c), holders, hungUp')
  {
    var n := GiveUpEntry(e, c);
    StepGiveUp(key, e, c);
    if IsParked(e.pending, c) {
      RemovedExactly(e, Position(e.pending, c));
      assert multiset(Listed(e)) == multiset(Listed(n)) + multiset{c};
      assert n.upstream == e.upstream && n.pinned == e.pinned;
      hide WellFormed, Listed, GiveUpEntry;
      forall x ensures x in Listed(e) <==> x in Listed(n) || x == c {
        assert x in Listed(e) <==> x in multiset(Listed(e));
      }
    }
  }

  /** Every step of a key keeps what holds of it, given the matching change to its holders. */
  lemma KeyStepKeeps(key: SubKey, e: Entry, ev: KeyEvent,
                     holders: set<nat>, hungUp: set<nat>, holders': set<nat>, hungUp': set<nat>)
    requires KeyInv(key, e, holders, hungUp)
    requires KeyChange(key, e, ev, holders, hungUp, holders', hungUp')
    requires ev.Arrive? ==> Routable(key, ev.msg.ord)
    ensures KeyInv(key, KeyStep(key, e, ev), holders', hungUp')
    ensures ev.Join? ==> ev.client !in Listed(e)
  {
    hide JoinEntry, LeaveEntry, UpdateEntry, GiveUpEntry, WellFormed, Listed, SameListed;
    match ev
    case Join(c) => JoinKeeps(key, e, c, holders, hungUp, hungUp');
    case Leave(c) => LeaveKeeps(key, e, c, holders, hungUp, hungUp');
    case Pin => PinKeeps(key, e, holders, hungUp, hungUp');
    case Arrive(m, now) => ArriveKeeps(key, e, m, now, holders, hungUp, hungUp');
    case Answer(c, snapshot) =>
      StepAnswer(key, e, c, snapshot);
      SameMultiset(e, AnswerEntry(key, e, c, snapshot));
      SameListedKeeps(key, e, AnswerEntry(key, e, c, snapshot), holders, hungUp, hungUp');
    case Lost(s) =>
      StepLost(key, e, s);
      SameMultiset(e, LoseEntry(key, e, s));
      SameListedKeeps(key, e, LoseEntry(key, e, s), holders, hungUp, hungUp');
    case GiveUp(c) => GiveUpKeeps(key, e, c, holders, hungUp, hungUp');
  }

  lemma PinKeeps(key: SubKey, e: Entry, holders: set<nat>, hungUp: set<nat>, hungUp': set<nat>)
    requires KeyInv(key, e, holders, hungUp) && hungUp <= hungUp'
    ensures KeyInv(key, PinEntry(e), holders, hungUp')
  {
  }

  lemma EmptyKey(key: SubKey, hungUp: set<nat>, holders: set<nat>)
    requires holders <= hungUp
    ensures KeyInv(key, EMPTY, holders, hungUp)
  {
    assert Listed(EMPTY) == [];
  }

  // ---------- One key's part of a registry step ----------

  /** What an event of the registry does to one key. */
  function Project(w: World, ev: Event, k: SubKey): seq<KeyEvent> {
    if !Enabled(w, ev) then []
    else
      match ev
      case Subscribe(c, key) => if key == k && k !in w.peers[c].keys then [Join(c)] else []
      case Unsubscribe(c, key) => if key == k && k in w.peers[c].keys then [Leave(c)] else []
      case Cleanup(c, _) => if k in w.peers[c].keys then [Leave(c)] else []
      case PinKey(key) => if key == k then [Pin] else []
      case Update(key, m, now) => if key == k then [Arrive(m, now)] else []
      case DeliverSnapshot(key, c, snapshot) => if key == k && c in w.peers then [Answer(c, snapshot)] else []
      case LoseSource(s) => [Lost(s)]
      case FailPending(key, c) => if key == k && c in w.peers then [GiveUp(c)] else []
      case _ => []
  }

  function ProjectRun(w: World, evs: seq<Event>, k: SubKey): seq<KeyEvent> {
    if evs == [] then []
    else
      var n := |evs| - 1;
      ProjectRun(w, evs[..n], k) + Project(After(w, evs[..n]), evs[n], k)
  }

  lemma DetachedView(w: World, c: nat, key: SubKey, k: SubKey)
    ensures Lookup(Detached(w, c, key), k)
         == if k == key then LeaveEntry(Lookup(w, k), c) else Lookup(w, k)
    ensures Detached(w, c, key).peers == w.peers
    ensures Detached(w, c, key).nextId == w.nextId && Detached(w, c, key).live == w.live
  {
    assert Without([], c) == [] && WithoutPending([], c) == [];
    hide Without, WithoutPending;
  }

  lemma {:induction false} DetachedAllView(w: World, c: nat, order: seq<SubKey>, k: SubKey)
    requires multiset(order)[k] <= 1
    ensures Lookup(DetachedAll(w, c, order), k)
         == if k in order then LeaveEntry(Lookup(w, k), c) else Lookup(w, k)
    ensures DetachedAll(w, c, order).peers == w.peers
    ensures DetachedAll(w, c, order).nextId == w.nextId && DetachedAll(w, c, order).live == w.live
  {
    hide Lookup, LeaveEntry, Detached;
    if order != [] {
      var n := |order| - 1;
      assert order == order[..n] + [order[n]];
      DetachedAllView(w, c, order[..n], k);
      DetachedView(DetachedAll(w, c, order[..n]), c, order[n], k);
      assert k in order[..n] ==> k in multiset(order[..n]);
    }
  }

  lemma CleanedUpView(w: World, c: nat, order: seq<SubKey>, k: SubKey)
    requires c in w.peers && multiset(order) == multiset(w.peers[c].keys)
    ensures Lookup(CleanedUp(w, c, order), k)
         == if k in w.peers[c].keys then LeaveEntry(Lookup(w, k), c) else Lookup(w, k)
    ensures CleanedUp(w, c, order).peers == w.peers[c := w.peers[c].(keys := {})]
    ensures CleanedUp(w, c, order).nextId == w.nextId && CleanedUp(w, c, order).live == w.live - {c}
  {
    hide LeaveEntry, DetachedAll;
    assert k in order <==> k in multiset(order);
    DetachedAllView(WithKeys(w, c, {}).(live := w.live - {c}), c, order, k);
  }

  lemma RunOfAtMostOne(k: SubKey, e: Entry, evs: seq<KeyEvent>)
    requires |evs| <= 1
    ensures Run(k, e, evs) == if evs == [] then e else KeyStep(k, e, evs[0])
  {
    hide KeyStep;
    if evs != [] {
      assert evs[..0] == [];
    }
  }

  lemma EmptyEntryLoses(k: SubKey, s: nat)
    ensures LoseEntry(k, EMPTY, s) == EMPTY
  {
  }

  lemma AnsweredView(w: World, key: SubKey, c: nat, snapshot: Msg, k: SubKey)
    ensures Lookup(Answered(w, key, c, snapshot), k)
         == if k == key && c in w.peers then AnswerEntry(k, Lookup(w, k), c, snapshot) else Lookup(w, k)
  {
    hide SentBacklog, AnswerFor, Position;
    assert Position([], c) == 0;
  }

  lemma GivenUpView(w: World, key: SubKey, c: nat, k: SubKey)
    ensures Lookup(GivenUp(w, key, c), k)
         == if k == key && c in w.peers then GiveUpEntry(Lookup(w, k), c) else Lookup(w, k)
  {
    hide Position;
    assert Position([], c) == 0;
  }

  /** One step of one key, if there is one. */
  function Moved(k: SubKey, e: Entry, evs: seq<KeyEvent>): Entry {
    if evs == [] then e else KeyStep(k, e, evs[0])
  }

  lemma ClientView(w: World, ev: Event, k: SubKey)
    requires ev.Subscribe? || ev.Unsubscribe? || ev.Cleanup?
    ensures Lookup(Next(w, ev), k) == Moved(k, Lookup(w, k), Project(w, ev, k))
  {
    hide LeaveEntry, JoinEntry, DetachedAll, Detached, CleanedUp;
    if Enabled(w, ev) {
      match ev
      case Unsubscribe(c, key) =>
        if key in w.peers[c].keys {
          DetachedView(WithKeys(w, c, w.peers[c].keys - {key}), c, key, k);
        }
      case Cleanup(c, order) =>
        CleanedUpView(w, c, order, k);
      case _ =>
    }
  }

  lemma SourceView(w: World, ev: Event, k: SubKey)
    requires !ev.Subscribe? && !ev.Unsubscribe? && !ev.Cleanup?
    ensures Lookup(Next(w, ev), k) == Moved(k, Lookup(w, k), Project(w, ev, k))
  {
    hide PinEntry, UpdateEntry, FannedOut, Killed, LoseEntry, AnswerEntry, GiveUpEntry, Answered, GivenUp;
    if Enabled(w, ev) {
      match ev
      case LoseSource(s) =>
        EmptyEntryLoses(k, s);
      case DeliverSnapshot(key, c, snapshot) =>
        AnsweredView(w, key, c, snapshot, k);
      case FailPending(key, c) =>
        GivenUpView(w, key, c, k);
      case _ =>
    }
  }

  lemma ProjectsAtMostOne(w: World, ev: Event, k: SubKey)
    ensures |Project(w, ev, k)| <= 1
  {
    hide Enabled;
  }

  /** A step of the registry does to each key just what the projected event does to its entry. */
  lemma StepView(w: World, ev: Event, k: SubKey)
    ensures |Project(w, ev, k)| <= 1
    ensures Lookup(Next(w, ev), k) == Run(k, Lookup(w, k), Project(w, ev, k))
  {
    hide Run, Project, Next, Lookup, KeyStep;
    ProjectsAtMostOne(w, ev, k);
    RunOfAtMostOne(k, Lookup(w, k), Project(w, ev, k));
    if ev.Subscribe? || ev.Unsubscribe? || ev.Cleanup? {
      ClientView(w, ev, k);
    } else {
      SourceView(w, ev, k);
    }
  }

  lemma {:induction false} RunView(w: World, evs: seq<Event>, k: SubKey)
    ensures Lookup(After(w, evs), k) == Run(k, Lookup(w, k), ProjectRun(w, evs, k))
  {
    hide Next, Project, Lookup;
    if evs != [] {
      var n := |evs| - 1;
      RunView(w, evs[..n], k);
      StepView(After(w, evs[..n]), evs[n], k);
      RunSplit(k, Lookup(w, k), ProjectRun(w, evs[..n], k), Project(After(w, evs[..n]), evs[n], k));
    }
  }

  // ---------- The registry invariant ----------

  ghost predicate RegistryInv(w: World) {
    && (forall c <- w.peers :: c < w.nextId)
    && (forall key :: KeyInv(key, Lookup(w, key), Holders(w, key), HungUp(w)))
  }

  /** The same clients hold the same keys, and whoever was to be hung up still is. */
  ghost predicate SameHolders(a: Peers, b: Peers) {
    && a.Keys == b.Keys
    && forall c <- a :: b[c].keys == a[c].keys && (a[c].kill ==> b[c].kill)
  }

  lemma SameHoldersMeans(w: World, n: World, key: SubKey)
    requires SameHolders(w.peers, n.peers)
    ensures Holders(n, key) == Holders(w, key) && HungUp(w) <= HungUp(n)
  {
    forall c ensures c in n.peers <==> c in w.peers {
      assert c in n.peers.Keys <==> c in w.peers.Keys;
    }
  }

  lemma {:induction false} FanOutKeepsHolders(peers: Peers, ids: seq<nat>, o: Out, incremental: bool)
    ensures SameHolders(peers, FannedOut(peers, ids, o, incremental))
  {
    if ids != [] {
      FanOutKeepsHolders(peers, ids[..|ids| - 1], o, incremental);
    }
  }

  lemma {:induction false} BacklogKeepsKeys(p: Peer, key: SubKey, msgs: seq<Msg>)
    ensures SentBacklog(p, key, msgs).keys == p.keys
    ensures p.kill ==> SentBacklog(p, key, msgs).kill
    decreases |msgs|
  {
    if msgs != [] && Accepts(p) {
      BacklogKeepsKeys(Enqueued(p, Out(key, msgs[0])), key, msgs[1..]);
    }
  }

  lemma UpdateKeepsHolders(w: World, key: SubKey, m: Msg, now: nat)
    ensures SameHolders(w.peers, Updated(w, key, m, now).peers)
    ensures forall c <- Evicted(key, Lookup(w, key), m, now) ::
              c in w.peers ==> c in HungUp(Updated(w, key, m, now))
  {
    hide UpdateEntry, Evicted, Ruled;
    var killed := Killed(w.peers, Evicted(key, Lookup(w, key), m, now));
    var o := Out(key, m);
    FanOutKeepsHolders(killed, Lookup(w, key).subscribers, o, key.IsIncremental());
    hide FannedOut;
    assert forall c <- w.peers :: c in killed.Keys;
  }

  lemma EvictedAreListed(key: SubKey, e: Entry, m: Msg, now: nat)
    ensures forall c <- Evicted(key, e, m, now) :: c in Listed(e)
  {
    if Ruled(key, e, m, now).deliver && Holds(m.ord) {
      var all := HoldAll(e.pending, m);
      KeptExactly(all);
      forall c | c in Overflowed(all) ensures c in Listed(e) {
        var x :| x in all && x.client == c;
        var i :| 0 <= i < |all| && all[i] == x;
        assert ClientsOf(e.pending)[i] == c;
      }
    }
  }

  lemma UpdateChange(w: World, key: SubKey, m: Msg, now: nat, k: SubKey)
    requires RegistryInv(w)
    ensures var n := Updated(w, key, m, now);
            && Holders(n, k) == Holders(w, k) && HungUp(w) <= HungUp(n)
            && forall c <- Evicted(key, Lookup(w, key), m, now) :: c in HungUp(n)
  {
    hide Updated, Evicted, Listed, HungUp, Lookup, WellFormed;
    UpdateKeepsHolders(w, key, m, now);
    SameHoldersMeans(w, Updated(w, key, m, now), k);
    EvictedAreListed(key, Lookup(w, key), m, now);
    assert KeyInv(key, Lookup(w, key), Holders(w, key), HungUp(w));
  }

  lemma AnswerChange(w: World, key: SubKey, c: nat, snapshot: Msg, k: SubKey)
    ensures Holders(Answered(w, key, c, snapshot), k) == Holders(w, k)
    ensures HungUp(w) <= HungUp(Answered(w, key, c, snapshot))
  {
    hide AnswerEntry, AnswerFor, SentBacklog, Holders, HungUp;
    if c in w.peers {
      BacklogKeepsKeys(w.peers[c], key, AnswerFor(key, Lookup(w, key), c, snapshot));
    }
    SameHoldersMeans(w, Answered(w, key, c, snapshot), k);
  }

  /** How an event changes who holds a key and who must be hung up. */
  ghost predicate Changes(w: World, n: World, k: SubKey, evs: seq<KeyEvent>) {
    if evs == [] then Holders(n, k) == Holders(w, k) && HungUp(w) <= HungUp(n)
    else KeyChange(k, Lookup(w, k), evs[0], Holders(w, k), HungUp(w), Holders(n, k), HungUp(n))
         && (evs[0].Arrive? ==> Routable(k, evs[0].msg.ord))
  }

  lemma KeysChange(w: World, n: World, c: nat, keys: set<SubKey>, k: SubKey)
    requires c in w.peers && n.peers == w.peers[c := w.peers[c].(keys := keys)]
    ensures Holders(n, k) == if k in keys then Holders(w, k) + {c} else Holders(w, k) - {c}
    ensures HungUp(n) == HungUp(w)
  {
  }

  lemma JoinChange(w: World, c: nat, key: SubKey, k: SubKey)
    requires c in w.peers
    ensures Changes(w, Subscribed(w, c, key), k, if key == k && k !in w.peers[c].keys then [Join(c)] else [])
  {
    hide JoinEntry, Lookup, Holders, HungUp;
    if key !in w.peers[c].keys {
      KeysChange(w, Subscribed(w, c, key), c, w.peers[c].keys + {key}, k);
      HoldsIff(w, c, k);
    }
  }

  lemma HoldsIff(w: World, c: nat, k: SubKey)
    requires c in w.peers
    ensures c in Holders(w, k) <==> k in w.peers[c].keys
  {
  }

  lemma UnsubscribeChange(w: World, c: nat, key: SubKey, k: SubKey)
    requires c in w.peers
    ensures Changes(w, Unsubscribed(w, c, key), k, if key == k && k in w.peers[c].keys then [Leave(c)] else [])
  {
    hide Detached, Lookup, Holders, HungUp;
    if key in w.peers[c].keys {
      DetachedView(WithKeys(w, c, w.peers[c].keys - {key}), c, key, key);
      KeysChange(w, Unsubscribed(w, c, key), c, w.peers[c].keys - {key}, k);
      HoldsIff(w, c, k);
    }
  }

  lemma CleanupChange(w: World, c: nat, order: seq<SubKey>, k: SubKey)
    requires c in w.peers && multiset(order) == multiset(w.peers[c].keys)
    ensures Changes(w, CleanedUp(w, c, order), k, if k in w.peers[c].keys then [Leave(c)] else [])
  {
    hide CleanedUp, Lookup, Holders, HungUp;
    CleanedUpView(w, c, order, k);
    KeysChange(w, CleanedUp(w, c, order), c, {}, k);
    HoldsIff(w, c, k);
  }

  lemma ClientChange(w: World, ev: Event, k: SubKey)
    requires ev.Subscribe? || ev.Unsubscribe? || ev.Cleanup?
    ensures Changes(w, Next(w, ev), k, Project(w, ev, k))
  {
    hide Changes, Subscribed, Unsubscribed, CleanedUp;
    if Enabled(w, ev) {
      match ev
      case Subscribe(c, key) => JoinChange(w, c, key, k);
      case Unsubscribe(c, key) => UnsubscribeChange(w, c, key, k);
      case Cleanup(c, order) => CleanupChange(w, c, order, k);
    } else {
      NothingChanges(w, k);
    }
  }

  lemma NothingChanges(w: World, k: SubKey)
    ensures Changes(w, w, k, [])
  {
  }

  lemma GiveUpChange(w: World, key: SubKey, c: nat, k: SubKey)
    ensures Holders(GivenUp(w, key, c), k) == Holders(w, k)
    ensures HungUp(w) <= HungUp(GivenUp(w, key, c))
    ensures c in w.peers && IsParked(Lookup(w, key).pending, c) ==> c in HungUp(GivenUp(w, key, c))
  {
    hide GiveUpEntry, Position;
    assert Position([], c) == 0;
  }

  lemma QuietChange(w: World, ev: Event, k: SubKey)
    requires RegistryInv(w)
    requires !ev.Subscribe? && !ev.Unsubscribe? && !ev.Cleanup?
    requires !ev.Update? && !ev.DeliverSnapshot? && !ev.FailPending?
    ensures Changes(w, Next(w, ev), k, Project(w, ev, k))
  {
    hide KeyInv, PinEntry, LoseEntry, Lookup;
  }

  lemma FrameChange(w: World, ev: Event, k: SubKey)
    requires RegistryInv(w) && ev.Update?
    ensures Changes(w, Next(w, ev), k, Project(w, ev, k))
  {
    hide Updated, Lookup, RegistryInv, Holders, HungUp, Evicted;
    if Enabled(w, ev) {
      UpdateChange(w, ev.key, ev.msg, ev.now, k);
    }
  }

  lemma SnapshotChange(w: World, ev: Event, k: SubKey)
    requires ev.DeliverSnapshot? || ev.FailPending?
    ensures Changes(w, Next(w, ev), k, Project(w, ev, k))
  {
    hide Answered, GivenUp, Lookup, IsParked, Holders, HungUp;
    if ev.DeliverSnapshot? {
      AnswerChange(w, ev.key, ev.client, ev.snapshot, k);
    } else {
      GiveUpChange(w, ev.key, ev.client, k);
    }
  }

  lemma StepChange(w: World, ev: Event, k: SubKey)
    requires RegistryInv(w)
    ensures Changes(w, Next(w, ev), k, Project(w, ev, k))
  {
    hide *;
    if ev.Update? {
      FrameChange(w, ev, k);
    } else if ev.DeliverSnapshot? || ev.FailPending? {
      SnapshotChange(w, ev, k);
    } else if ev.Subscribe? || ev.Unsubscribe? || ev.Cleanup? {
      ClientChange(w, ev, k);
    } else {
      QuietChange(w, ev, k);
    }
  }

  lemma StepKeepsIds(w: World, ev: Event)
    requires forall c <- w.peers :: c < w.nextId
    ensures forall c <- Next(w, ev).peers :: c < Next(w, ev).nextId
  {
    hide LeaveEntry, JoinEntry, UpdateEntry, DetachedAll, Detached, CleanedUp, AnswerFor, Lookup, Updated;
    if Enabled(w, ev) {
      match ev
      case Update(key, m, now) =>
        UpdateKeepsHolders(w, key, m, now);
        assert forall c <- Updated(w, key, m, now).peers :: c in Updated(w, key, m, now).peers.Keys;
        assert Updated(w, key, m, now).nextId == w.nextId by { UpdatedKeepsIds(w, key, m, now); }
      case Unsubscribe(c, key) =>
        if key in w.peers[c].keys {
          DetachedView(WithKeys(w, c, w.peers[c].keys - {key}), c, key, key);
        }
      case Cleanup(c, order) =>
        CleanedUpPeers(w, c, order);
      case _ =>
    }
  }

  lemma UpdatedKeepsIds(w: World, key: SubKey, m: Msg, now: nat)
    ensures Updated(w, key, m, now).nextId == w.nextId
  {
  }

  lemma {:induction false} DetachedAllPeers(w: World, c: nat, order: seq<SubKey>)
    ensures DetachedAll(w, c, order).peers == w.peers && DetachedAll(w, c, order).nextId == w.nextId
  {
    hide Detached;
    if order != [] {
      DetachedAllPeers(w, c, order[..|order| - 1]);
      DetachedView(DetachedAll(w, c, order[..|order| - 1]), c, order[|order| - 1], order[|order| - 1]);
    }
  }

  lemma CleanedUpPeers(w: World, c: nat, order: seq<SubKey>)
    requires c in w.peers
    ensures CleanedUp(w, c, order).peers == w.peers[c := w.peers[c].(keys := {})]
    ensures CleanedUp(w, c, order).nextId == w.nextId
  {
    hide DetachedAll;
    DetachedAllPeers(WithKeys(w, c, {}).(live := w.live - {c}), c, order);
  }

  /** Every step of the registry keeps the invariant. */
  lemma StepKeepsRegistry(w: World, ev: Event)
    requires RegistryInv(w)
    ensures RegistryInv(Next(w, ev))
  {
    hide KeyInv, Lookup, Holders, HungUp, Next, KeyStep;
    var n := Next(w, ev);
    StepKeepsIds(w, ev);
    forall k ensures KeyInv(k, Lookup(n, k), Holders(n, k), HungUp(n)) {
      KeyKeeps(w, ev, k);
    }
  }

  lemma KeyKeeps(w: World, ev: Event, k: SubKey)
    requires RegistryInv(w)
    ensures var n := Next(w, ev); KeyInv(k, Lookup(n, k), Holders(n, k), HungUp(n))
  {
    hide Lookup, Holders, HungUp, Next, KeyStep, KeyChange, Project, WellFormed, Listed, Run;
    var n := Next(w, ev);
    var evs := Project(w, ev, k);
    assert KeyInv(k, Lookup(w, k), Holders(w, k), HungUp(w));
    StepView(w, ev, k);
    StepChange(w, ev, k);
    RunOfAtMostOne(k, Lookup(w, k), evs);
    if evs != [] {
      KeyStepKeeps(k, Lookup(w, k), evs[0], Holders(w, k), HungUp(w), Holders(n, k), HungUp(n));
    }
  }

  lemma {:induction false} RunKeepsRegistry(w: World, evs: seq<Event>)
    requires RegistryInv(w)
    ensures RegistryInv(After(w, evs))
  {
    hide RegistryInv, Next;
    if evs != [] {
      RunKeepsRegistry(w, evs[..|evs| - 1]);
      StepKeepsRegistry(After(w, evs[..|evs| - 1]), evs[|evs| - 1]);
    }
  }

  lemma StartsRegistry(sources: nat)
    ensures RegistryInv(Started(sources))
  {
    var w := Started(sources);
    forall key ensures KeyInv(key, Lookup(w, key), Holders(w, key), HungUp(w)) {
      EmptyKey(key, {}, {});
    }
  }

  /** The registry invariant, spelled out, over every run of the registry from its start: a client is
      listed at most once for a key, counting both lists; whoever is listed holds the key; whoever
      holds the key is listed or is being hung up; and a key is live upstream exactly while somebody
      is listed or it is pinned, or while its last holder is on the way out. */
  lemma RegistryHolds(sources: nat, evs: seq<Event>, key: SubKey, c: nat)
    ensures var w := After(Started(sources), evs);
            var e := Lookup(w, key);
            && multiset(Listed(e))[c] <= 1
            && (c in Listed(e) ==> c in w.peers && key in w.peers[c].keys)
            && (c in w.peers && key in w.peers[c].keys ==> c in Listed(e) || w.peers[c].kill)
            && (Listed(e) != [] || e.pinned ==> e.upstream)
            && (e.upstream ==> e.pinned || exists d :: d in w.peers && key in w.peers[d].keys)
            && AllBounded(e.pending)
            && (!key.IsIncremental() ==> e.pending == [] && e.arb.needsSnapshot == {})
  {
    var w := After(Started(sources), evs);
    StartsRegistry(sources);
    RunKeepsRegistry(Started(sources), evs);
    hide After, Lookup, Listed, AllBounded, Started;
    assert KeyInv(key, Lookup(w, key), Holders(w, key), HungUp(w));
    NobodyListed(Lookup(w, key));
    if Lookup(w, key).upstream && !Lookup(w, key).pinned {
      var d :| d in Holders(w, key);
    }
  }

  /** A removed client is gone: it is connected no more, holds nothing, and is listed nowhere, and nobody
      else's place is touched. */
  lemma CleanupForgets(w: World, c: nat, order: seq<SubKey>, k: SubKey, d: nat)
    requires RegistryInv(w) && Enabled(w, Cleanup(c, order))
    ensures var n := Next(w, Cleanup(c, order));
            && n.live == w.live - {c}
            && n.peers == w.peers[c := w.peers[c].(keys := {})]
            && c !in Listed(Lookup(n, k))
            && (d != c ==> (d in Listed(Lookup(n, k)) <==> d in Listed(Lookup(w, k))))
  {
    hide LeaveEntry, CleanedUp, Listed, WellFormed, RegistryInv, Lookup;
    var e := Lookup(w, k);
    CleanedUpView(w, c, order, k);
    HoldersKeep(w, k, c);
    LeavesOnlyOne(e, c, c);
    LeavesOnlyOne(e, c, d);
  }

  lemma HoldersKeep(w: World, k: SubKey, c: nat)
    requires RegistryInv(w) && c in w.peers
    ensures k !in w.peers[c].keys ==> c !in Listed(Lookup(w, k))
  {
    hide Lookup, Listed, WellFormed;
    assert KeyInv(k, Lookup(w, k), Holders(w, k), HungUp(w));
  }

  lemma LeavesOnlyOne(e: Entry, c: nat, d: nat)
    ensures d in Listed(LeaveEntry(e, c)) <==> d in Listed(e) && d != c
  {
    UnlistedIff(e, c, d);
    NobodyListed(Unlisted(e, c));
    assert Listed(EMPTY) == [];
    hide Listed, Unlisted;
  }

  /** Every projected run is legal, so what is proved of one key's runs holds inside the registry. */
  lemma {:induction false} ProjectedRunIsLegal(w: World, evs: seq<Event>, k: SubKey)
    requires RegistryInv(w)
    ensures LegalRun(k, Lookup(w, k), ProjectRun(w, evs, k))
    ensures WellFormed(k, Lookup(w, k))
  {
    hide Next, Project, Lookup, RegistryInv, Legal, Run, WellFormed, LegalRun;
    RegistryWellFormed(w, k);
    if evs == [] {
      LegalNothing(k, Lookup(w, k));
    } else {
      var n := |evs| - 1;
      ProjectedRunIsLegal(w, evs[..n], k);
      RunKeepsRegistry(w, evs[..n]);
      RunView(w, evs[..n], k);
      StepView(After(w, evs[..n]), evs[n], k);
      ProjectedStepIsLegal(After(w, evs[..n]), evs[n], k);
      LegalAppend(k, Lookup(w, k), ProjectRun(w, evs[..n], k), Project(After(w, evs[..n]), evs[n], k));
    }
  }

  lemma RegistryWellFormed(w: World, k: SubKey)
    requires RegistryInv(w)
    ensures WellFormed(k, Lookup(w, k))
  {
    assert KeyInv(k, Lookup(w, k), Holders(w, k), HungUp(w));
  }

  lemma LegalNothing(k: SubKey, e: Entry)
    ensures LegalRun(k, e, [])
  {
  }

  lemma LegalAppend(k: SubKey, e: Entry, a: seq<KeyEvent>, b: seq<KeyEvent>)
    requires LegalRun(k, e, a) && |b| <= 1
    requires b != [] ==> Legal(k, Run(k, e, a), b[0])
    ensures LegalRun(k, e, a + b)
  {
    hide Legal, Run;
    forall i | 0 <= i < |a + b| ensures Legal(k, Run(k, e, (a + b)[..i]), (a + b)[i]) {
      if i < |a| {
        assert (a + b)[..i] == a[..i];
      } else {
        assert (a + b)[..i] == a;
      }
    }
  }

  lemma ProjectedStepIsLegal(w: World, ev: Event, k: SubKey)
    requires RegistryInv(w)
    ensures Project(w, ev, k) != [] ==> Legal(k, Lookup(w, k), Project(w, ev, k)[0])
  {
    hide Lookup, Listed, WellFormed, Next;
    StepChange(w, ev, k);
    assert KeyInv(k, Lookup(w, k), Holders(w, k), HungUp(w));
  }
}
