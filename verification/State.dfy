/** The registry as the program keeps it: objects updated in place. Each operation is proved to do to the
whole registry exactly what its function in module `Registry` says, so everything proved of runs of the
registry holds of sequences of calls. */
module State {
  import opened Wire
  import opened Arbiter
  import opened Entries
  import opened Registry
  import opened Stats
  import opened Fetch
  import Gate
  import opened Entities

  class AppState {
    const sources: seq<Source>
    var subs: map<SubKey, SubEntry>
    var clients: map<nat, Client>
    var nextClientId: nat
    /** Every client there ever was, and everything ever broadcast. */
    ghost var everyone: map<nat, Client>
    ghost var ledger: seq<Ctrl>

    ghost predicate Knows(c: Client)
      reads this`everyone
    {
      c.id in everyone && everyone[c.id] == c
    }

    ghost predicate KnowsAll(e: SubEntry)
      reads this`everyone, e
    {
      && (forall c <- e.subscribers :: Knows(c))
      && (forall p <- e.pending :: Knows(p.client))
    }

    ghost predicate ValidClients()
      reads this`everyone, this`clients, this`nextClientId
    {
      && (forall c <- everyone :: everyone[c].id == c && c < nextClientId)
      && (forall c <- clients :: c in everyone && clients[c] == everyone[c])
    }

    ghost predicate ValidEntries()
      reads this`everyone, this`subs, subs.Values
    {
      forall k <- subs :: subs[k].key == k && KnowsAll(subs[k])
    }

    ghost predicate Valid()
      reads this`everyone, this`clients, this`nextClientId, this`subs, subs.Values
    {
      ValidSources(sources) && ValidClients() && ValidEntries()
    }

    // ---------- The registry's value ----------

    ghost function EntriesView(): map<SubKey, Entry>
      reads this`subs, subs.Values
    {
      map k | k in subs :: subs[k].View()
    }

    ghost function PeersView(): Peers
      reads this`everyone, everyone.Values
    {
      map c | c in everyone :: everyone[c].View()
    }

    ghost function LinksView(): seq<Link>
      reads sources
    {
      seq(|sources|, i requires 0 <= i < |sources| reads sources => sources[i].View())
    }

    ghost function View(): World
      reads this, subs.Values, everyone.Values, sources
    {
      World(EntriesView(), PeersView(), clients.Keys, nextClientId, ledger, LinksView())
    }

    /** The entry of one key, if there is one. */
    ghost function At(key: SubKey): set<SubEntry>
      reads this`subs
    {
      if key in subs then {subs[key]} else {}
    }

    constructor (sources: seq<Source>)
      requires ValidSources(sources)
      requires forall s <- sources :: s.View() == Link(Down, [], {})
      ensures Valid() && this.sources == sources && View() == Started(|sources|)
    {
      this.sources := sources;
      subs, clients, nextClientId, everyone, ledger := map[], map[], 1, map[], [];
      new;
      assert LinksView() == seq(|sources|, _ => Link(Down, [], {}));
    }

    lemma KnownPeer(c: Client)
      requires Knows(c)
      ensures c.id in PeersView() && PeersView()[c.id] == c.View()
    {
    }

    // ---------- Clients ----------

    /** Registering a client makes nobody unknown. */
    twostate lemma KnownStayKnown()
      requires old(ValidEntries()) && subs == old(subs)
      requires forall k <- subs :: unchanged(subs[k])
      requires forall c <- old(everyone) :: c in everyone && everyone[c] == old(everyone)[c]
      ensures ValidEntries()
    {
    }

    twostate lemma OneMorePeer(c: nat, new x: Client)
      requires everyone == old(everyone)[c := x] && c !in old(everyone)
      requires forall d <- old(everyone) :: unchanged(old(everyone)[d])
      ensures PeersView() == old(PeersView())[c := x.View()]
    {
    }

    method RegisterClient() returns (c: Client)
      requires Valid()
      modifies this`clients, this`nextClientId, this`everyone
      ensures Valid() && Knows(c) && fresh(c) && c.id == old(nextClientId)
      ensures View() == Registered(old(View()))
    {
      hide EntriesView, PeersView, ValidEntries, LinksView, Client.View;
      c := new Client(nextClientId);
      everyone := everyone[nextClientId := c];
      clients := clients[nextClientId := c];
      nextClientId := nextClientId + 1;
      KnownStayKnown();
      OneMorePeer(c.id, c);
      assert clients.Keys == old(clients.Keys) + {c.id};
    }

    method SetKeys(client: Client, keys: set<SubKey>)
      requires ValidClients() && Knows(client)
      modifies client`subscriptions
      ensures client.View() == old(client.View()).(keys := keys)
      ensures PeersView() == old(PeersView())[client.id := old(client.View()).(keys := keys)]
    {
      client.subscriptions := keys;
    }

    // ---------- Entries ----------

    method Broadcast(c: Ctrl)
      requires ValidSources(sources)
      modifies this`ledger, sources
      ensures ledger == old(ledger) + [c]
      ensures LinksView() == Queued(old(LinksView()), c)
    {
      for i := 0 to |sources|
        invariant ledger == old(ledger)
        invariant forall j :: 0 <= j < i ==>
          sources[j].View() == old(sources[j].View()).(queue := old(sources[j].queue) + [c])
        invariant forall j :: i <= j < |sources| ==> sources[j].View() == old(sources[j].View())
      {
        sources[i].Push(c);
      }
      ledger := ledger + [c];
    }

    /** The entry of a key, made if it is not there. */
    method EntryOrDefault(key: SubKey) returns (e: SubEntry)
      requires ValidEntries()
      modifies this`subs
      ensures ValidEntries() && key in subs && subs[key] == e
      ensures key in old(subs) ==> subs == old(subs) && e.View() == old(subs[key].View())
      ensures key !in old(subs) ==> fresh(e) && subs == old(subs)[key := e] && e.View() == EMPTY
      ensures e.View() == LookupIn(old(EntriesView()), key)
    {
      if key !in subs {
        e := new SubEntry(key);
        subs := subs[key := e];
      }
      e := subs[key];
    }

    twostate predicate OnlyAt(key: SubKey, new e: SubEntry)
      requires key in subs && subs[key] == e
      reads this`subs, this`everyone, subs.Values
    {
      && (subs == old(subs) || (key !in old(subs) && subs == old(subs)[key := e]))
      && (forall k <- subs :: k != key ==> unchanged(subs[k]))
      && everyone == old(everyone)
    }

    twostate lemma OthersValid(key: SubKey, new e: SubEntry)
      requires key in subs && subs[key] == e && e.key == key && KnowsAll(e)
      requires old(ValidEntries()) && OnlyAt(key, e)
      ensures ValidEntries()
    {
      hide SubEntry.View;
    }

    twostate lemma OthersSame(key: SubKey, new e: SubEntry)
      requires key in subs && subs[key] == e
      requires OnlyAt(key, e)
      ensures EntriesView() == old(EntriesView())[key := e.View()]
    {
      hide SubEntry.View, KnowsAll;
    }

    /** One entry changed, and no other. */
    twostate lemma OneEntryChanged(key: SubKey, new e: SubEntry)
      requires old(ValidEntries()) && key in subs && subs[key] == e && e.key == key && KnowsAll(e)
      requires subs == old(subs) || (key !in old(subs) && subs == old(subs)[key := e])
      requires forall k <- subs :: k != key ==> unchanged(subs[k])
      requires everyone == old(everyone)
      ensures ValidEntries()
      ensures EntriesView() == old(EntriesView())[key := e.View()]
    {
      hide ValidEntries, EntriesView, KnowsAll, SubEntry.View;
      OthersValid(key, e);
      OthersSame(key, e);
    }

    method JoinEntryOf(client: Client, key: SubKey) returns (needUpstream: bool)
      requires ValidEntries() && Knows(client)
      modifies this`subs, At(key)
      ensures ValidEntries()
      ensures EntriesView() == old(EntriesView())[key := JoinEntry(key, LookupIn(old(EntriesView()), key), client.id)]
      ensures needUpstream == !LookupIn(old(EntriesView()), key).upstream
    {
      hide EntriesView, SubEntry.View, JoinEntry;
      var e := EntryOrDefault(key);
      assert key == e.key && KnowsAll(e);
      assert e.View().upstream == e.upstreamSubscribed by { UpstreamOf(e); }
      needUpstream := e.Join(client);
      OneEntryChanged(key, e);
    }

    lemma UpstreamOf(e: SubEntry)
      ensures e.View().upstream == e.upstreamSubscribed
    {
    }

    method Subscribe(client: Client, key: SubKey) returns (r: Outcome)
      requires Valid() && Knows(client)
      modifies this`subs, this`ledger, client`subscriptions, At(key), sources
      ensures Valid()
      ensures r == SubscribeOutcome(old(View()), client.id, key)
      ensures View() == Subscribed(old(View()), client.id, key)
    {
      hide EntriesView, PeersView, LinksView, ValidEntries, ValidClients, ValidSources, JoinEntry, Queued;
      KnownPeer(client);
      if key in client.subscriptions {
        return Duplicate;
      }
      SetKeys(client, client.subscriptions + {key});
      var needUpstream := JoinEntryOf(client, key);
      if needUpstream {
        Broadcast(Sub(key));
        r := Fresh;
      } else {
        r := JoinedRunning;
      }
    }

    method PinEntryOf(key: SubKey) returns (needUpstream: bool)
      requires ValidEntries()
      modifies this`subs, At(key)
      ensures ValidEntries()
      ensures EntriesView() == old(EntriesView())[key := PinEntry(LookupIn(old(EntriesView()), key))]
      ensures needUpstream == !LookupIn(old(EntriesView()), key).upstream
    {
      hide EntriesView;
      var e := EntryOrDefault(key);
      e.pinned := true;
      needUpstream := !e.upstreamSubscribed;
      e.upstreamSubscribed := true;
      OneEntryChanged(key, e);
    }

    method Pin(key: SubKey)
      requires Valid()
      modifies this`subs, this`ledger, At(key), sources
      ensures Valid() && View() == Pinned(old(View()), key)
    {
      hide EntriesView, PeersView, LinksView, ValidEntries, ValidClients, ValidSources, PinEntry, Queued;
      var needUpstream := PinEntryOf(key);
      if needUpstream {
        Broadcast(Sub(key));
      }
    }

    twostate lemma OneEntryDropped(key: SubKey)
      requires old(ValidEntries()) && subs == old(subs) - {key}
      requires forall k <- subs :: k != key ==> unchanged(subs[k])
      requires everyone == old(everyone)
      ensures ValidEntries()
      ensures EntriesView() == old(EntriesView()) - {key}
    {
    }

    method DetachEntryOf(client: Client, key: SubKey) returns (dropUpstream: bool)
      requires ValidEntries() && key in subs
      modifies this`subs, At(key)
      ensures ValidEntries()
      ensures key in old(EntriesView())
      ensures dropUpstream == LeaveDrops(old(EntriesView())[key], client.id)
      ensures EntriesView() == if dropUpstream then old(EntriesView()) - {key}
                               else old(EntriesView())[key := Unlisted(old(EntriesView())[key], client.id)]
      ensures forall k <- subs :: k in old(subs) && subs[k] == old(subs[k])
    {
      hide EntriesView, LeaveDrops, Unlisted, SubEntry.View;
      var e := subs[key];
      assert key in EntriesView() && EntriesView()[key] == e.View() by { EntryAt(key); }
      DetachKeepsFlag(e, client.id);
      dropUpstream := e.Detach(client.id);
      if dropUpstream {
        subs := subs - {key};
        OneEntryDropped(key);
      } else {
        OneEntryChanged(key, e);
      }
    }

    lemma DetachKeepsFlag(e: SubEntry, c: nat)
      ensures Unlisted(e.View(), c).(upstream := e.upstreamSubscribed) == Unlisted(e.View(), c)
    {
    }

    lemma EntryAt(key: SubKey)
      requires key in subs
      ensures key in EntriesView() && EntriesView()[key] == subs[key].View()
    {
    }

    lemma SameKeys()
      ensures EntriesView().Keys == subs.Keys
    {
    }

    method Detach(client: Client, key: SubKey)
      requires Valid()
      modifies this`subs, this`ledger, At(key), sources
      ensures Valid() && View() == Detached(old(View()), client.id, key)
      ensures forall k <- subs :: k in old(subs) && subs[k] == old(subs[k])
    {
      hide EntriesView, PeersView, LinksView, ValidEntries, ValidClients, ValidSources, LeaveDrops, Unlisted, Queued;
      var dropUpstream := false;
      SameKeys();
      if key in subs {
        dropUpstream := DetachEntryOf(client, key);
      }
      if dropUpstream {
        Broadcast(Unsub(key));
      }
    }

    method Unsubscribe(client: Client, key: SubKey) returns (held: bool)
      requires Valid() && Knows(client)
      modifies this`subs, this`ledger, client`subscriptions, At(key), sources
      ensures Valid() && held == (key in old(client.subscriptions))
      ensures View() == Unsubscribed(old(View()), client.id, key)
    {
      hide EntriesView, PeersView, LinksView, ValidEntries, ValidClients, ValidSources, Detached;
      KnownPeer(client);
      held := key in client.subscriptions;
      if held {
        SetKeys(client, client.subscriptions - {key});
        Detach(client, key);
      }
    }

    method Forget(client: Client)
      requires ValidClients()
      modifies this`clients
      ensures ValidClients() && clients.Keys == old(clients.Keys) - {client.id}
    {
      clients := clients - {client.id};
    }

    /** Removes a client and detaches it from every key it holds, in the order they come out of its set. */
    method CleanupClient(client: Client) returns (ghost order: seq<SubKey>)
      requires Valid() && Knows(client)
      modifies this`clients, this`subs, this`ledger, client`subscriptions, subs.Values, sources
      ensures Valid() && multiset(order) == multiset(old(client.subscriptions))
      ensures View() == CleanedUp(old(View()), client.id, order)
    {
      hide EntriesView, PeersView, LinksView, ValidEntries, ValidClients, ValidSources, Detached;
      KnownPeer(client);
      Forget(client);
      var keys := client.subscriptions;
      SetKeys(client, {});
      order := [];
      ghost var start := View();
      assert start == WithKeys(old(View()), client.id, {}).(live := old(View()).live - {client.id});
      while keys != {}
        invariant Valid()
        invariant forall k <- subs :: k in old(subs) && subs[k] == old(subs[k])
        invariant multiset(order) + multiset(keys) == multiset(old(client.subscriptions))
        invariant View() == DetachedAll(start, client.id, order)
        decreases |keys|
      {
        var key :| key in keys;
        keys := keys - {key};
        Detach(client, key);
        assert (order + [key])[..|order|] == order;
        order := order + [key];
      }
    }

    // ---------- Frames ----------

    twostate lemma OnePeerChanged(c: Client)
      requires old(Knows(c)) && everyone == old(everyone) && old(ValidClients())
      requires forall d <- everyone :: everyone[d] != c ==> unchanged(everyone[d])
      ensures PeersView() == old(PeersView())[c.id := c.View()]
    {
    }

    method Kill(client: Client)
      requires ValidClients() && Knows(client)
      modifies client`kill
      ensures PeersView() == old(PeersView())[client.id := old(client.View()).(kill := true)]
    {
      client.kill := true;
      OnePeerChanged(client);
    }

    lemma KilledAppend(peers: Peers, ids: seq<nat>, c: nat)
      requires c in peers
      ensures c in Killed(peers, ids)
      ensures Killed(peers, ids + [c]) == Killed(peers, ids)[c := Killed(peers, ids)[c].(kill := true)]
    {
    }

    method KillAll(overflowed: seq<Client>)
      requires ValidClients() && forall c <- overflowed :: Knows(c)
      modifies overflowed
      ensures PeersView() == Killed(old(PeersView()), Ids(overflowed))
    {
      hide PeersView, Client.View;
      assert PeersView() == Killed(PeersView(), Ids([]));
      for i := 0 to |overflowed|
        invariant PeersView() == Killed(old(PeersView()), Ids(overflowed[..i]))
      {
        var c := overflowed[i];
        assert Ids(overflowed[..i + 1]) == Ids(overflowed[..i]) + [c.id];
        KnownPeer(c);
        KilledAppend(old(PeersView()), Ids(overflowed[..i]), c.id);
        Kill(c);
      }
      assert overflowed[..|overflowed|] == overflowed;
    }

    method SendTo(client: Client, o: Out, incremental: bool)
      requires ValidClients() && Knows(client)
      modifies client
      ensures client.View() == Sent(old(client.View()), o, incremental)
      ensures PeersView() == old(PeersView())[client.id := Sent(old(client.View()), o, incremental)]
    {
      if incremental {
        var ok := client.SendOrHangUp(o);
      } else {
        var ok := client.TrySend(o);
        if !ok {
          client.dropped := client.dropped + 1;
        }
      }
      OnePeerChanged(client);
    }

    method FanOut(subscribers: seq<Client>, o: Out, incremental: bool)
      requires ValidClients() && forall c <- subscribers :: Knows(c)
      modifies subscribers
      ensures PeersView() == FannedOut(old(PeersView()), Ids(subscribers), o, incremental)
    {
      hide PeersView, Client.View, Sent;
      for i := 0 to |subscribers|
        invariant PeersView() == FannedOut(old(PeersView()), Ids(subscribers[..i]), o, incremental)
      {
        assert Ids(subscribers[..i + 1])[..i] == Ids(subscribers[..i]);
        assert Ids(subscribers[..i + 1])[i] == subscribers[i].id;
        KnownPeer(subscribers[i]);
        SendTo(subscribers[i], o, incremental);
      }
      assert subscribers[..|subscribers|] == subscribers;
    }

    /** Holds a forwarded frame for whoever is waiting, and evicts those whose backlog is too large. */
    method HoldAndEvict(e: SubEntry, m: Msg) returns (overflowed: seq<Client>)
      requires KnowsAll(e)
      modifies e`pending
      ensures KnowsAll(e)
      ensures forall c <- overflowed :: Knows(c)
      ensures Views(e.pending)
           == if Holds(m.ord) then Kept(HoldAll(old(Views(e.pending)), m)) else old(Views(e.pending))
      ensures Ids(overflowed) == if Holds(m.ord) then Overflowed(HoldAll(old(Views(e.pending)), m)) else []
    {
      overflowed := [];
      if e.pending != [] {
        if m.ord.Block? || m.ord.Snapshot? || m.ord.Sticky? {
          e.HoldForAll(m);
          label held:
          assert forall p <- e.pending :: Knows(p.client);
          overflowed := e.EvictOverflowed();
        }
      } else {
        assert HoldAll([], m) == [];
      }
    }

    /** Arbitrates a frame on its entry and holds it for the waiting. */
    method RaceEntryOf(key: SubKey, m: Msg, now: nat)
      returns (deliver: bool, win: bool, late: Option<nat>, stale: bool,
               subscribers: seq<Client>, overflowed: seq<Client>)
      requires ValidEntries()
      modifies this`subs, At(key)
      ensures ValidEntries()
      ensures var e := LookupIn(old(EntriesView()), key);
              && EntriesView() == old(EntriesView())[key := UpdateEntry(key, e, m, now)]
              && Ruled(key, e, m, now) == Ruling(Ruled(key, e, m, now).arb, deliver, win, late, stale)
              && Ids(subscribers) == (if deliver then e.subscribers else [])
              && Ids(overflowed) == Evicted(key, e, m, now)
      ensures forall c <- subscribers :: Knows(c)
      ensures forall c <- overflowed :: Knows(c)
    {
      hide EntriesView, RulePoint, RuleLead, RuleSticky, RuleSnapshot, RuleBlock, Kept, Overflowed, HoldAll;
      var e := EntryOrDefault(key);
      assert e.key == key && KnowsAll(e);
      deliver, win, late, stale := e.Arbitrate(m.src, m.ord, now);
      overflowed := [];
      if deliver {
        overflowed := HoldAndEvict(e, m);
      }
      subscribers := if deliver then e.subscribers else [];
      OneEntryChanged(key, e);
    }

    /** Hangs up the evicted clients, then sends the frame to the subscribers. */
    method SendOut(overflowed: seq<Client>, subscribers: seq<Client>, o: Out, incremental: bool)
      requires ValidClients()
      requires (forall c <- overflowed :: Knows(c)) && forall c <- subscribers :: Knows(c)
      modifies everyone.Values
      ensures PeersView() == FannedOut(Killed(old(PeersView()), Ids(overflowed)), Ids(subscribers), o, incremental)
    {
      hide PeersView, Client.View, Killed, FannedOut;
      assert forall c <- overflowed :: Knows(c) && c in everyone.Values;
      assert forall c <- subscribers :: Knows(c) && c in everyone.Values;
      KillAll(overflowed);
      FanOut(subscribers, o, incremental);
    }

    lemma StatsAt(i: nat)
      requires ValidSources(sources) && i < |sources|
      ensures sources[i].stats.Valid()
    {
    }

    /** Handles one routed frame from source `i`. */
    method OnUpdate(i: nat, key: SubKey, ord: Seq, payload: Payload, now: nat)
      requires Valid() && i < |sources|
      modifies this`subs, At(key), everyone.Values, sources[i].stats, sources[i].stats.hist
      ensures Valid()
      ensures View() == Updated(old(View()), key, Msg(i, ord, payload), now)
      ensures sources[i].stats.Valid()
      ensures sources[i].stats.View()
           == Charged(old(sources[i].stats.View()), Ruled(key, Lookup(old(View()), key), Msg(i, ord, payload), now))
    {
      hide EntriesView, PeersView, LinksView, ValidEntries, ValidClients, ValidSources, UpdateEntry, Evicted, Ruled;
      hide Killed, SourceStats.View, SourceStats.Valid, Charged, Knows, At;
      StatsAt(i);
      var m := Msg(i, ord, payload);
      ghost var e := Lookup(View(), key);
      var deliver, win, late, stale, subscribers, overflowed := RaceEntryOf(key, m, now);
      sources[i].stats.Charge(win, late, stale, Ruled(key, e, m, now));
      SendOut(overflowed, subscribers, Out(key, m), key.IsIncremental());
    }

    /** Handles one parsed frame from source `i`: it is routed, refused by its block time, or arbitrated. */
    method HandleFrame(i: nat, payload: Payload, time: Option<nat>, clock: nat, maxAge: Option<nat>, now: nat)
      requires Valid() && i < |sources|
      modifies this`subs, subs.Values, everyone.Values, sources[i].stats, sources[i].stats.hist
      ensures Valid()
      ensures match Route(payload.frame)
              case None => View() == old(View())
              case Some((key, ord)) =>
                && Routable(key, ord)
                && View() == if Gate.Admits(time, clock, maxAge)
                             then Updated(old(View()), key, Msg(i, ord, payload), now) else old(View())
      ensures sources[i].stats.Valid()
      ensures sources[i].stats.View()
           == match Route(payload.frame)
              case None => old(sources[i].stats.View())
              case Some((key, ord)) =>
                if Gate.Admits(time, clock, maxAge)
                then Charged(old(sources[i].stats.View()),
                             Ruled(key, Lookup(old(View()), key), Msg(i, ord, payload), now))
                else old(sources[i].stats.View())
    {
      hide EntriesView, PeersView, LinksView, ValidEntries, ValidClients, ValidSources, Route, Updated, Routable;
      hide Ruled, Charged, SourceStats.View, SourceStats.Valid;
      StatsAt(i);
      RoutedAsDocumented(payload.frame);
      match Route(payload.frame)
      case None =>
      case Some((key, ord)) =>
        if time.Some? && time.value > clock && time.value - clock > Gate.FUTURE_LIMIT_MS {
          return;
        }
        if maxAge.Some? && time.Some? && clock > time.value && clock - time.value > maxAge.value {
          return;
        }
        OnUpdate(i, key, ord, payload, now);
    }

    // ---------- Snapshots ----------

    /** Attaches a waiting client to the stream; gives back what it is to be sent. */
    method AttachEntryOf(key: SubKey, clientId: nat, snapshot: Msg) returns (client: Client?, backlog: seq<Msg>)
      requires ValidEntries() && key in subs
      modifies At(key)
      ensures ValidEntries() && subs == old(subs)
      ensures key in old(EntriesView())
      ensures var e := old(EntriesView())[key];
              && EntriesView() == old(EntriesView())[key := AnswerEntry(key, e, clientId, snapshot)]
              && (client != null <==> IsParked(e.pending, clientId))
              && backlog == AnswerFor(key, e, clientId, snapshot)
      ensures client != null ==> Knows(client) && client.id == clientId
    {
      hide EntriesView, Backlog, Removed;
      var e := subs[key];
      assert e.key == key && KnowsAll(e);
      EntryAt(key);
      client, backlog := null, [];
      var i := e.PositionOf(clientId);
      if i < |e.pending| {
        assert Knows(e.pending[i].client);
        var w := e.TakeOff(i);
        client := w.client;
        var held := SubEntry.Unheld(w.held, snapshot.ord.stamp, key.SingleSourced(), snapshot.src);
        backlog := [snapshot] + held;
        if key.SingleSourced() {
          e.blockLeader := Some(snapshot.src);
        }
        e.subscribers := e.subscribers + [client];
        assert Ids(e.subscribers) == Ids(old(e.subscribers)) + [clientId];
      }
      OneEntryChanged(key, e);
    }

    method SendBacklogTo(client: Client, key: SubKey, backlog: seq<Msg>)
      requires ValidClients() && Knows(client)
      modifies client
      ensures PeersView() == old(PeersView())[client.id := SentBacklog(old(client.View()), key, backlog)]
    {
      client.SendBacklog(key, backlog);
      OnePeerChanged(client);
    }

    /** Hands a fetched snapshot to the client waiting for it and attaches it to the live stream. */
    method DeliverSnapshot(key: SubKey, clientId: nat, snapshot: Msg)
      requires Valid()
      modifies At(key), everyone.Values
      ensures Valid() && View() == Answered(old(View()), key, clientId, snapshot)
    {
      hide EntriesView, PeersView, LinksView, ValidEntries, ValidClients, ValidSources, AnswerEntry, AnswerFor;
      hide SentBacklog, IsParked;
      SameKeys();
      if key in subs {
        var client, backlog := AttachEntryOf(key, clientId, snapshot);
        if client != null {
          assert client in everyone.Values;
          KnownPeer(client);
          SendBacklogTo(client, key, backlog);
        } else {
          NotParkedUnchanged(key, old(EntriesView()[key]), clientId);
          assert EntriesView() == old(EntriesView());
        }
      }
    }

    lemma NotParkedUnchanged(key: SubKey, e: Entry, c: nat)
      requires !IsParked(e.pending, c)
      ensures GiveUpEntry(e, c) == e && forall m :: AnswerEntry(key, e, c, m) == e
    {
    }

    method RemoveWaiting(key: SubKey, clientId: nat) returns (client: Client?)
      requires ValidEntries() && key in subs
      modifies At(key)
      ensures ValidEntries() && subs == old(subs)
      ensures key in old(EntriesView())
      ensures var e := old(EntriesView())[key];
              && EntriesView() == old(EntriesView())[key := GiveUpEntry(e, clientId)]
              && (client != null <==> IsParked(e.pending, clientId))
      ensures client != null ==> Knows(client) && client.id == clientId
    {
      hide EntriesView, Removed;
      var e := subs[key];
      assert e.key == key && KnowsAll(e);
      EntryAt(key);
      client := null;
      var i := e.PositionOf(clientId);
      if i < |e.pending| {
        assert Knows(e.pending[i].client);
        var w := e.TakeOff(i);
        client := w.client;
      }
      OneEntryChanged(key, e);
    }

    /** Gives up on a waiting client: it is hung up rather than served a book with no base. */
    method FailPending(key: SubKey, clientId: nat)
      requires Valid()
      modifies At(key), everyone.Values
      ensures Valid() && View() == GivenUp(old(View()), key, clientId)
    {
      hide EntriesView, PeersView, LinksView, ValidEntries, ValidClients, ValidSources, GiveUpEntry, IsParked;
      SameKeys();
      if key in subs {
        var client := RemoveWaiting(key, clientId);
        if client != null {
          assert client in everyone.Values;
          KnownPeer(client);
          Kill(client);
        } else {
          NotParkedUnchanged(key, old(EntriesView()[key]), clientId);
          assert EntriesView() == old(EntriesView());
        }
      }
    }

    // ---------- Losing a source ----------

    method LoseEntryOf(key: SubKey, s: nat) returns (orphaned: seq<Client>)
      requires ValidEntries() && key in subs
      modifies At(key)
      ensures ValidEntries() && subs == old(subs)
      ensures key in old(EntriesView())
      ensures EntriesView() == old(EntriesView())[key := LoseEntry(key, old(EntriesView())[key], s)]
      ensures Ids(orphaned) == Orphaned(key, old(EntriesView())[key], s)
    {
      hide EntriesView, LoseEntry, Orphaned, SubEntry.View;
      var e := subs[key];
      assert e.key == key && KnowsAll(e);
      EntryAt(key);
      orphaned := e.Lose(s);
      OneEntryChanged(key, e);
    }

    /** Frees every entry the source was leading. The pairs returned are the clients of incremental
        channels, each of which needs a snapshot to be fetched. */
    method ResyncAfterSourceLoss(s: nat) returns (work: seq<(SubKey, nat)>)
      requires Valid()
      modifies subs.Values
      ensures Valid() && View() == SourceLost(old(View()), s)
      ensures forall k, c ::
                multiset(work)[(k, c)] == multiset(Orphaned(k, LookupIn(old(EntriesView()), k), s))[c]
    {
      hide EntriesView, PeersView, LinksView, ValidEntries, ValidClients, ValidSources, LoseEntry, Orphaned;
      hide LostBut, WorkDone, Tagged;
      ghost var before := EntriesView();
      SameKeys();
      work := [];
      var todo := subs.Keys;
      LossStarts(before, s);
      while todo != {}
        invariant Valid() && subs == old(subs) && todo <= subs.Keys
        invariant EntriesView() == LostBut(before, s, todo)
        invariant WorkDone(work, before, s, todo)
        decreases |todo|
      {
        var key :| key in todo;
        LostButAt(before, s, todo, key);
        var orphaned := LoseEntryOf(key, s);
        WorkAppend(work, before, s, todo, key);
        work := work + Tagged(key, Ids(orphaned));
        todo := todo - {key};
      }
      LossEnds(work, before, s);
    }

    // ---------- Connections ----------

    /** Everything live upstream, each key once. */
    method SubscribedRequests() returns (r: seq<SubKey>)
      ensures multiset(r) == multiset(Live(View()))
    {
      hide View, Live;
      r := [];
      var todo := subs.Keys;
      ghost var listed: set<SubKey> := {};
      LiveIs();
      while todo != {}
        invariant todo <= subs.Keys
        invariant multiset(r) == multiset(listed)
        invariant listed == Live(View()) - todo
        decreases |todo|
      {
        var key :| key in todo;
        todo := todo - {key};
        if subs[key].upstreamSubscribed {
          r := r + [key];
          listed := listed + {key};
        }
      }
      assert listed == Live(View());
    }

    lemma LiveIs()
      ensures forall k :: k in Live(View()) <==> k in subs && subs[k].upstreamSubscribed
    {
    }

    twostate lemma OneLinkChanged(i: nat)
      requires ValidSources(sources) && i < |sources|
      requires forall j :: 0 <= j < |sources| && j != i ==> unchanged(sources[j])
      ensures LinksView() == old(LinksView())[i := sources[i].View()]
    {
    }

    /** A reconnected source drops what queued up for its old connection. */
    method EmptyQueue(i: nat)
      requires Valid() && i < |sources|
      modifies sources[i]
      ensures Valid() && View() == Drained(old(View()), i)
      ensures sources[i].phase.Emptied?
    {
      hide EntriesView, PeersView;
      sources[i].DropQueued(Live(View()));
      OneLinkChanged(i);
    }

    lemma LinkAt(i: nat)
      requires i < |sources|
      ensures |LinksView()| == |sources| && LinksView()[i] == sources[i].View()
    {
    }

    lemma SameKeysSameSet(r: seq<SubKey>, live: set<SubKey>)
      requires multiset(r) == multiset(live)
      ensures (set k | k in r) == live
    {
      assert forall k :: k in live <==> k in multiset(live);
      assert forall k :: k in r <==> k in multiset(r);
    }

    /** Then it is subscribed to everything live. */
    method Resubscribe(i: nat)
      requires Valid() && i < |sources| && sources[i].phase.Emptied?
      modifies sources[i]
      ensures Valid() && View() == Resubscribed(old(View()), i)
    {
      hide EntriesView, PeersView, LinksView, ValidEntries, ValidClients, Live;
      LinkAt(i);
      var requests := SubscribedRequests();
      SameKeysSameSet(requests, Live(View()));
      sources[i].SubscribeTo(requests);
      OneLinkChanged(i);
    }

    method Disconnect(i: nat)
      requires Valid() && i < |sources|
      modifies sources[i]
      ensures Valid()
      ensures View() == Next(old(View()), Event.Disconnect(i))
    {
      hide EntriesView, PeersView, LinksView, ValidEntries, ValidClients;
      LinkAt(i);
      sources[i].phase := Down;
      OneLinkChanged(i);
    }

    /** The connection passes one queued control frame on. */
    method Pump(i: nat)
      requires Valid() && i < |sources| && sources[i].phase.Up? && sources[i].queue != []
      modifies sources[i]
      ensures Valid() && View() == Pumped(old(View()), i)
    {
      hide EntriesView, PeersView, LinksView, ValidEntries, ValidClients, Applied;
      LinkAt(i);
      sources[i].Forward();
      OneLinkChanged(i);
    }

    // ---------- A client's socket ----------

    /** The writer task takes a message off the client's queue. */
    method Drain(client: Client)
      requires Valid() && Knows(client) && client.queued > 0
      modifies client`queued
      ensures Valid() && View() == Next(old(View()), Event.Drain(client.id, 1))
    {
      hide EntriesView, PeersView, LinksView, ValidEntries;
      KnownPeer(client);
      client.TakeOne();
      OnePeerChanged(client);
    }

    method CloseQueue(client: Client)
      requires Valid() && Knows(client)
      modifies client`open
      ensures Valid() && View() == Next(old(View()), Event.CloseQueue(client.id))
    {
      hide EntriesView, PeersView, LinksView, ValidEntries;
      KnownPeer(client);
      client.open := false;
      OnePeerChanged(client);
    }

    method Reply(client: Client)
      requires Valid() && Knows(client)
      modifies client`queued
      ensures Valid() && View() == Next(old(View()), Event.Chatter(client.id))
    {
      hide EntriesView, PeersView, LinksView, ValidEntries;
      KnownPeer(client);
      client.Reply();
      OnePeerChanged(client);
    }

    // ---------- Silence ----------

    ghost function Watching(): seq<Watched>
      requires ValidSources(sources)
      reads set s <- sources :: s.stats, set s <- sources :: s.stats.hist
    {
      seq(|sources|, i requires 0 <= i < |sources|
                       reads set s <- sources :: s.stats, set s <- sources :: s.stats.hist
                     => Watched(sources[i].stats.connected, sources[i].stats.View()))
    }

    lemma WatchedAt(i: nat)
      requires ValidSources(sources) && i < |sources|
      ensures |Watching()| == |sources|
      ensures Watching()[i] == Watched(sources[i].stats.connected, sources[i].stats.View())
    {
    }

    /** Sources that have gone quiet while others keep delivering. */
    method SilentSources(limit: nat) returns (silent: seq<nat>)
      requires ValidSources(sources)
      ensures silent == Stats.SilentSources(Watching(), limit)
    {
      hide SourceStats.View, Watching, Freshest, TooIdle, IdleFor;
      silent := [];
      var freshest: Option<nat> := None;
      ghost var watched := Watching();
      SameNumberWatched();
      NoneWatched(limit);
      for i := 0 to |sources|
        invariant freshest == Freshest(watched[..i])
      {
        WatchedAt(i);
        FreshestStep(watched, i);
        var idle := sources[i].stats.Idle();
        if idle.Some? && (freshest.None? || idle.value < freshest.value) {
          freshest := idle;
        }
      }
      assert watched[..|sources|] == watched;
      if freshest.None? || freshest.value > limit {
        return;
      }
      for i := 0 to |sources|
        invariant silent == TooIdle(watched[..i], limit)
      {
        WatchedAt(i);
        TooIdleStep(watched, i, limit);
        var idle := sources[i].stats.Idle();
        if sources[i].stats.connected && idle.Some? && idle.value > limit {
          silent := silent + [sources[i].id];
        }
      }
    }

    lemma SameNumberWatched()
      requires ValidSources(sources)
      ensures |Watching()| == |sources|
    {
    }

    /** Every source's window is rolled. */
    method RollWindows()
      requires ValidSources(sources)
      modifies set s <- sources :: s.stats
      ensures Watching() == RolledAll(old(Watching()))
    {
      hide SourceStats.View, Rolled;
      for i := 0 to |sources|
        invariant forall j :: 0 <= j < i ==> sources[j].stats.View() == Rolled(old(sources[j].stats.View()))
        invariant forall j :: i <= j < |sources| ==> sources[j].stats.View() == old(sources[j].stats.View())
        invariant forall j :: 0 <= j < |sources| ==> sources[j].stats.connected == old(sources[j].stats.connected)
      {
        sources[i].stats.RollWindow();
      }
    }

    // ---------- Fetching a snapshot ----------

    ghost function Standings(): seq<Standing>
      requires ValidSources(sources)
      reads set s <- sources :: s.stats, set s <- sources :: s.stats.hist
    {
      seq(|sources|, i requires 0 <= i < |sources|
                       reads set s <- sources :: s.stats, set s <- sources :: s.stats.hist
                     => Standing(sources[i].stats.connected, IdleFor(sources[i].stats.View())))
    }

    method CurrentStandings() returns (w: seq<Standing>)
      requires ValidSources(sources)
      ensures w == Standings()
    {
      hide IdleFor, SourceStats.View;
      w := [];
      for i := 0 to |sources|
        invariant w == Standings()[..i]
      {
        var idle := sources[i].stats.Idle();
        w := w + [Standing(sources[i].stats.connected, idle)];
      }
    }

    /** Whom to ask for a snapshot, as the sources stand now. */
    method RankSources() returns (candidates: seq<nat>)
      requires ValidSources(sources)
      ensures candidates == Candidates(Standings(), SILENCE_LIMIT)
      ensures InOrder(Standings(), candidates) && Stable(Standings(), candidates)
      ensures forall s: nat :: s in candidates <==>
                && s < |Standings()| && Standings()[s].connected
                && ((exists t: nat :: Usable(Standings(), SILENCE_LIMIT, t)) ==> Usable(Standings(), SILENCE_LIMIT, s))
    {
      hide Candidates, Standings, InOrder, Stable, Usable;
      var standings := CurrentStandings();
      candidates := Candidates(standings, SILENCE_LIMIT);
      CandidatesExactly(standings, SILENCE_LIMIT);
    }

    /** Hands a waiting client the snapshot of the first candidate that answered, and gives the client up
        when none did. The candidates were ranked when the fetch began, and asked one after the other;
        whatever else went on meanwhile, asking changed nothing here. */
    method FetchSnapshot(key: SubKey, clientId: nat, candidates: seq<nat>, answers: Answers)
      requires Valid()
      modifies At(key), everyone.Values
      ensures Valid()
      ensures match FirstAnswer(candidates, answers)
              case Some(m) => View() == Answered(old(View()), key, clientId, m)
              case None => View() == GivenUp(old(View()), key, clientId)
    {
      hide EntriesView, PeersView, LinksView, ValidEntries, ValidClients, ValidSources, Answered, GivenUp, At;
      assert candidates[0..] == candidates;
      for i := 0 to |candidates|
        invariant Valid() && View() == old(View()) && At(key) == old(At(key)) && everyone == old(everyone)
        invariant FirstAnswer(candidates, answers) == FirstAnswer(candidates[i..], answers)
      {
        assert candidates[i..][0] == candidates[i] && candidates[i..][1..] == candidates[i + 1..];
        match answers(candidates[i])
        case Some((height, payload)) =>
          DeliverSnapshot(key, clientId, Msg(candidates[i], Snapshot(height), payload));
          return;
        case None =>
      }
      FailPending(key, clientId);
    }
  }

  /** Sources are numbered in order, and each has statistics of its own. */
  ghost predicate ValidSources(sources: seq<Source>) {
    && (forall i :: 0 <= i < |sources| ==> sources[i].id == i && sources[i].stats.hist.Length == NUM_BUCKETS)
    && (forall i, j :: 0 <= i < j < |sources| ==>
          sources[i].stats != sources[j].stats && sources[i].stats.hist != sources[j].stats.hist)
  }

  /** The entries once the source is lost to all but some keys. */
  function LostBut(subs: map<SubKey, Entry>, s: nat, todo: set<SubKey>): map<SubKey, Entry> {
    map k | k in subs :: if k in todo then subs[k] else LoseEntry(k, subs[k], s)
  }

  /** The work so far: the clients of every key the loss has reached, each as often as it was attached. */
  ghost predicate WorkDone(work: seq<(SubKey, nat)>, subs: map<SubKey, Entry>, s: nat, todo: set<SubKey>) {
    forall k, c ::
      multiset(work)[(k, c)] == if k in todo then 0 else multiset(Orphaned(k, LookupIn(subs, k), s))[c]
  }

  lemma LossStarts(subs: map<SubKey, Entry>, s: nat)
    ensures LostBut(subs, s, subs.Keys) == subs && WorkDone([], subs, s, subs.Keys)
  {
  }

  lemma LossEnds(work: seq<(SubKey, nat)>, subs: map<SubKey, Entry>, s: nat)
    requires WorkDone(work, subs, s, {})
    ensures forall k, c :: multiset(work)[(k, c)] == multiset(Orphaned(k, LookupIn(subs, k), s))[c]
    ensures LostBut(subs, s, {}) == map k | k in subs :: LoseEntry(k, subs[k], s)
  {
    hide Orphaned, LoseEntry;
  }

  lemma LostButAt(subs: map<SubKey, Entry>, s: nat, todo: set<SubKey>, key: SubKey)
    requires key in todo && key in subs
    ensures key in LostBut(subs, s, todo) && LostBut(subs, s, todo)[key] == subs[key]
    ensures LostBut(subs, s, todo - {key}) == LostBut(subs, s, todo)[key := LoseEntry(key, subs[key], s)]
  {
    hide LoseEntry;
  }

  lemma WorkAppend(work: seq<(SubKey, nat)>, subs: map<SubKey, Entry>, s: nat, todo: set<SubKey>, key: SubKey)
    requires WorkDone(work, subs, s, todo) && key in todo && key in subs
    ensures WorkDone(work + Tagged(key, Orphaned(key, subs[key], s)), subs, s, todo - {key})
  {
    hide Orphaned, Tagged;
    var ids := Orphaned(key, subs[key], s);
    forall k, c
      ensures multiset(work + Tagged(key, ids))[(k, c)]
           == if k in todo - {key} then 0 else multiset(Orphaned(k, LookupIn(subs, k), s))[c]
    {
      TaggedCount(key, ids, k, c);
    }
  }

  function Tagged(key: SubKey, ids: seq<nat>): (r: seq<(SubKey, nat)>)
    ensures |r| == |ids|
  {
    seq(|ids|, i requires 0 <= i < |ids| => (key, ids[i]))
  }

  lemma {:induction false} TaggedCount(key: SubKey, ids: seq<nat>, k: SubKey, c: nat)
    ensures multiset(Tagged(key, ids))[(k, c)] == if k == key then multiset(ids)[c] else 0
  {
    if ids != [] {
      var n := |ids| - 1;
      TaggedCount(key, ids[..n], k, c);
      assert ids == ids[..n] + [ids[n]];
      assert Tagged(key, ids) == Tagged(key, ids[..n]) + [(key, ids[n])];
    }
  }
}
