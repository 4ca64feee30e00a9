/** The program at work, as the calls its tasks make: a client's connection, a source's connection, the
fetches they spawn, and the watch for silence. Whatever order their calls come in, what is proved of
runs of the registry holds of the objects, and nobody waits for a snapshot that is not being fetched. */
module Tasks {
  import opened Wire
  import opened Arbiter
  import opened Entries
  import opened Registry
  import opened Membership
  import opened Ledger
  import opened Stranded
  import opened Stats
  import opened Fetch
  import opened Entities
  import opened State
  import Gate

  class Server {
    const app: AppState
    /** The fetches spawned and not yet finished. */
    var fetches: Fetches
    /** The fetches under way, each with the candidates it ranked when it began. */
    var asking: multiset<(SubKey, nat, seq<nat>)>
    ghost var past: seq<Event>

    ghost predicate Valid()
      reads this, app, app.subs.Values, app.everyone.Values, app.sources
    {
      && app.Valid()
      && app.View() == After(Started(|app.sources|), past)
      && NobodyStranded(app.View(), fetches)
    }

    constructor (sources: seq<Source>)
      requires ValidSources(sources)
      requires forall s <- sources :: s.View() == Link(Down, [], {})
      ensures Valid() && fresh(app) && app.sources == sources && past == [] && fetches == multiset{}
    {
      app := new AppState(sources);
      fetches, asking, past := multiset{}, multiset{}, [];
      new;
      StartsStrandingNobody(|sources|);
    }

    /** At every moment the registry invariant holds, the upstream ledger is settled, and whoever waits
        for a snapshot has a fetch under way. */
    lemma Always()
      requires Valid()
      ensures RegistryInv(app.View()) && Settled(app.View())
      ensures forall k, c :: IsParked(Lookup(app.View(), k).pending, c) ==> fetches[(k, c)] > 0
    {
      hide RegistryInv, Settled, Started, IsParked;
      StartsRegistry(|app.sources|);
      RunKeepsRegistry(Started(|app.sources|), past);
      RunSettles(|app.sources|, past);
    }

    // ---------- A client's connection ----------

    method Connect() returns (client: Client)
      requires Valid()
      modifies this`past, app
      ensures Valid() && app.Knows(client) && fresh(client) && past == old(past) + [Register]
    {
      hide NobodyStranded, After, AppState.Valid, AppState.View;
      client := app.RegisterClient();
      Quietly(old(app.View()), Register);
      past := past + [Register];
    }

    /** An acknowledgement, or the answer to a ping. */
    method Acknowledge(client: Client)
      requires Valid() && app.Knows(client)
      modifies this`past, client
      ensures Valid() && app.Knows(client) && past == old(past) + [Chatter(client.id)]
    {
      hide NobodyStranded, After, AppState.Valid, AppState.View;
      ghost var before := app.View();
      app.Reply(client);
      Quietly(before, Chatter(client.id));
      past := past + [Chatter(client.id)];
    }

    /** A subscription request: refused on the one channel that cannot be arbitrated, and otherwise
        acknowledged, with a fetch spawned for a late joiner. */
    method HandleSubscribe(client: Client, subscription: SubKey)
      requires Valid() && app.Knows(client)
      modifies this`fetches, this`past, app, app.subs.Values, client, app.sources
      ensures Valid()
      ensures var key := subscription.Normalized();
              && past == old(past) + (if key.BookDiffs? then [] else [Subscribe(client.id, key), Chatter(client.id)])
              && client.id in old(app.View()).peers
              && fetches == old(fetches) + (if !key.BookDiffs? && NeedsFetch(old(app.View()), client.id, key)
                                            then multiset{(key, client.id)} else multiset{})
    {
      hide Next, NobodyStranded, After, AppState.Valid, AppState.View, Subscribed;
      var key := subscription.Normalized();
      Known(client);
      if key.BookDiffs? {
        return;
      }
      ghost var before := app.View();
      var outcome := app.Subscribe(client, key);
      if outcome.JoinedRunning? && key.IsIncremental() {
        fetches := fetches + multiset{(key, client.id)};
      }
      SubscribeStrandsNobody(before, client.id, key, old(fetches));
      ClientEvents(before, client.id, key, []);
      Happens(before, Subscribe(client.id, key));
      past := past + [Subscribe(client.id, key)];
      Acknowledge(client);
    }

    method HandleUnsubscribe(client: Client, subscription: SubKey)
      requires Valid() && app.Knows(client)
      modifies this`past, app, app.subs.Values, client, app.sources
      ensures Valid()
      ensures var key := subscription.Normalized();
              && client.id in old(app.View()).peers
              && past == old(past) + [Unsubscribe(client.id, key)]
                         + (if key in old(client.subscriptions) then [Chatter(client.id)] else [])
    {
      hide Next, NobodyStranded, After, AppState.Valid, AppState.View, Unsubscribed;
      var key := subscription.Normalized();
      Known(client);
      ghost var before := app.View();
      var held := app.Unsubscribe(client, key);
      ClientEvents(before, client.id, key, []);
      Quietly(before, Unsubscribe(client.id, key));
      past := past + [Unsubscribe(client.id, key)];
      if held {
        Acknowledge(client);
      }
    }

    /** The writer passes one message on. */
    method Write(client: Client)
      requires Valid() && app.Knows(client) && client.queued > 0
      modifies this`past, client
      ensures Valid() && past == old(past) + [Drain(client.id, 1)]
    {
      hide NobodyStranded, After, AppState.Valid, AppState.View;
      ghost var before := app.View();
      app.Drain(client);
      Quietly(before, Drain(client.id, 1));
      past := past + [Drain(client.id, 1)];
    }

    method CloseSocket(client: Client)
      requires Valid() && app.Knows(client)
      modifies this`past, client
      ensures Valid() && app.Knows(client) && past == old(past) + [CloseQueue(client.id)]
    {
      hide NobodyStranded, After, AppState.Valid, AppState.View;
      ghost var before := app.View();
      app.CloseQueue(client);
      Quietly(before, CloseQueue(client.id));
      past := past + [CloseQueue(client.id)];
    }

    method Remove(client: Client) returns (ghost order: seq<SubKey>)
      requires Valid() && app.Knows(client)
      modifies this`past, app, app.subs.Values, client, app.sources
      ensures Valid() && past == old(past) + [Cleanup(client.id, order)]
    {
      hide Next, NobodyStranded, After, AppState.Valid, AppState.View, CleanedUp;
      ghost var before := app.View();
      Known(client);
      order := app.CleanupClient(client);
      ClientEvents(before, client.id, Trades(""), order);
      Quietly(before, Cleanup(client.id, order));
      past := past + [Cleanup(client.id, order)];
    }

    /** A connection ends, for whatever reason: its queue closes and the client is cleaned up. */
    method HangUp(client: Client) returns (ghost order: seq<SubKey>)
      requires Valid() && app.Knows(client)
      modifies this`past, app, app.subs.Values, client, app.sources
      ensures Valid() && past == old(past) + [CloseQueue(client.id), Cleanup(client.id, order)]
    {
      hide Valid;
      CloseSocket(client);
      order := Remove(client);
    }

    // ---------- A source's connection ----------

    /** A frame comes in: it is counted, and handled. */
    method Receive(i: nat, payload: Payload, time: Option<nat>, clock: nat, maxAge: Option<nat>, now: nat)
      requires Valid() && i < |app.sources|
      modifies this`past, app, app.subs.Values, app.everyone.Values
      modifies app.sources[i].stats, app.sources[i].stats.hist
      ensures Valid()
      ensures past == old(past) + match Route(payload.frame)
                                  case None => []
                                  case Some((key, ord)) =>
                                    if Gate.Admits(time, clock, maxAge)
                                    then [Update(key, Msg(i, ord, payload), now)] else []
      ensures ValidSources(app.sources)
      ensures app.sources[i].stats.View()
           == match Route(payload.frame)
              case None => Heard(old(app.sources[i].stats.View()))
              case Some((key, ord)) =>
                if Gate.Admits(time, clock, maxAge)
                then Charged(Heard(old(app.sources[i].stats.View())),
                             Ruled(key, Lookup(old(app.View()), key), Msg(i, ord, payload), now))
                else Heard(old(app.sources[i].stats.View()))
    {
      hide NobodyStranded, After, AppState.Valid, AppState.View, Updated, Route, Routable, Lookup, Next;
      hide Ruled, Charged, SourceStats.View, SourceStats.Valid;
      ghost var before := app.View();
      Sound();
      app.sources[i].stats.Packet();
      app.HandleFrame(i, payload, time, clock, maxAge, now);
      match Route(payload.frame)
      case None =>
      case Some((key, ord)) =>
        if Gate.Admits(time, clock, maxAge) {
          ghost var m := Msg(i, ord, payload);
          UpdateIs(before, key, m, now);
          Quietly(before, Update(key, m, now));
          past := past + [Update(key, m, now)];
        }
    }

    /** A source is lost, or has gone silent while others deliver: a fetch is spawned for every client
        it leaves to be rebuilt. */
    method LoseSource(s: nat)
      requires Valid()
      modifies this`fetches, this`past, app.subs.Values
      ensures Valid() && app.subs == old(app.subs) && past == old(past) + [Event.LoseSource(s)]
      ensures app.View() == SourceLost(old(app.View()), s)
      ensures Gains(old(fetches), fetches, old(app.View()), [s])
    {
      hide NobodyStranded, After, Next, AppState.Valid, SourceLost, Orphaned, AppState.EntriesView, Gains;
      ghost var before := app.View();
      LossIs(before, s);
      var work := app.ResyncAfterSourceLoss(s);
      LossStrandsNobody(before, s, work, fetches);
      GainsWork(fetches, work, before, s);
      fetches := fetches + multiset(work);
      Happens(before, Event.LoseSource(s));
      past := past + [Event.LoseSource(s)];
    }

    /** The watch for silence: every window is rolled, and each source found silent while others deliver
        is treated as lost. */
    method Watch() returns (silent: seq<nat>)
      requires Valid()
      modifies this`fetches, this`past, app.subs.Values, set s <- app.sources :: s.stats
      ensures Valid()
      ensures ValidSources(app.sources)
      ensures app.Watching() == RolledAll(old(app.Watching()))
      ensures silent == Stats.SilentSources(RolledAll(old(app.Watching())), SILENCE_LIMIT)
      ensures past == old(past) + Losses(silent)
      ensures app.View() == LostAll(old(app.View()), silent)
      ensures Gains(old(fetches), fetches, old(app.View()), silent)
    {
      hide NobodyStranded, After, AppState.Valid, AppState.View, RolledAll, Stats.SilentSources, Gains, SourceLost;
      Sound();
      NothingGained(fetches, app.View());
      app.RollWindows();
      silent := app.SilentSources(SILENCE_LIMIT);
      for n := 0 to |silent|
        invariant Valid() && app.subs == old(app.subs)
        invariant past == old(past) + Losses(silent[..n])
        invariant app.View() == LostAll(old(app.View()), silent[..n])
        invariant Gains(old(fetches), fetches, old(app.View()), silent[..n])
        invariant ValidSources(app.sources) && app.Watching() == RolledAll(old(app.Watching()))
      {
        assert Losses(silent[..n + 1]) == Losses(silent[..n]) + [Event.LoseSource(silent[n])];
        ghost var sofar := fetches;
        LoseSource(silent[n]);
        GainsNext(old(fetches), sofar, fetches, old(app.View()), silent, n);
      }
      assert silent[..|silent|] == silent;
    }

    method Disconnected(i: nat)
      requires Valid() && i < |app.sources|
      modifies this`fetches, this`past, app.subs.Values, app.sources[i], app.sources[i].stats`connected
      ensures Valid() && past == old(past) + [Disconnect(i), Event.LoseSource(i)]
      ensures !app.sources[i].stats.connected
      ensures Gains(old(fetches), fetches, Next(old(app.View()), Disconnect(i)), [i])
      ensures forall k :: Lookup(Next(old(app.View()), Disconnect(i)), k) == Lookup(old(app.View()), k)
    {
      hide NobodyStranded, After, AppState.Valid, AppState.View, Gains, Next, Valid, Lookup;
      DisconnectKeepsEntries(app.View(), i);
      Dropped(i);
      LoseSource(i);
    }

    /** The connection is down. */
    method Dropped(i: nat)
      requires Valid() && i < |app.sources|
      modifies this`past, app.sources[i], app.sources[i].stats`connected
      ensures Valid() && past == old(past) + [Disconnect(i)]
      ensures app.View() == Next(old(app.View()), Disconnect(i))
      ensures !app.sources[i].stats.connected
    {
      hide NobodyStranded, After, AppState.Valid, AppState.View;
      ghost var before := app.View();
      app.sources[i].stats.connected := false;
      app.Disconnect(i);
      Quietly(before, Disconnect(i));
      past := past + [Disconnect(i)];
    }

    /** A new connection drops what is queued for the old one. */
    method Reconnecting(i: nat)
      requires Valid() && i < |app.sources|
      modifies this`past, app.sources[i], app.sources[i].stats`connected
      ensures Valid() && past == old(past) + [Empty(i)]
      ensures app.sources[i].phase.Emptied? && app.sources[i].stats.connected
    {
      hide NobodyStranded, After, AppState.Valid, AppState.View;
      ghost var before := app.View();
      Linked(i);
      app.sources[i].stats.connected := true;
      app.EmptyQueue(i);
      Quietly(before, Empty(i));
      past := past + [Empty(i)];
    }

    /** Then it subscribes to everything live. */
    method Reconnected(i: nat)
      requires Valid() && i < |app.sources| && app.sources[i].phase.Emptied?
      modifies this`past, app.sources[i]
      ensures Valid() && past == old(past) + [Event.Resubscribe(i)]
    {
      hide NobodyStranded, After, AppState.Valid, AppState.View, Live;
      ghost var before := app.View();
      Linked(i);
      app.Resubscribe(i);
      Quietly(before, Event.Resubscribe(i));
      past := past + [Event.Resubscribe(i)];
    }

    method PassOn(i: nat)
      requires Valid() && i < |app.sources| && app.sources[i].phase.Up? && app.sources[i].queue != []
      modifies this`past, app.sources[i]
      ensures Valid() && past == old(past) + [Event.Pump(i)]
    {
      hide NobodyStranded, After, AppState.Valid, AppState.View, Pumped;
      ghost var before := app.View();
      Linked(i);
      app.Pump(i);
      Quietly(before, Event.Pump(i));
      past := past + [Event.Pump(i)];
    }

    // ---------- Fetches, and the probe ----------

    /** A spawned fetch begins: it ranks the sources as they stand. */
    method BeginFetch(key: SubKey, client: nat) returns (candidates: seq<nat>)
      requires Valid() && fetches[(key, client)] > 0
      modifies this`asking
      ensures Valid() && ValidSources(app.sources)
      ensures candidates == Candidates(app.Standings(), SILENCE_LIMIT)
      ensures asking == old(asking) + multiset{(key, client, candidates)}
    {
      hide Candidates, AppState.Standings;
      Sound();
      candidates := app.RankSources();
      asking := asking + multiset{(key, client, candidates)};
    }

    /** It ends when one of its candidates answers, or none is left to ask, whatever happened since it
        began: its client is answered, or given up. */
    method EndFetch(key: SubKey, client: nat, candidates: seq<nat>, answers: Answers)
      requires Valid() && (key, client, candidates) in asking && fetches[(key, client)] > 0
      modifies this, app.subs.Values, app.everyone.Values
      ensures Valid() && fetches == old(fetches) - multiset{(key, client)}
      ensures asking == old(asking) - multiset{(key, client, candidates)}
      ensures past == old(past) + [FetchEvent(key, client, FirstAnswer(candidates, answers))]
      ensures !IsParked(Lookup(app.View(), key).pending, client)
    {
      hide NobodyStranded, After, AppState.Valid, AppState.View, FirstAnswer, IsParked, FetchEvent, Lookup;
      asking := asking - multiset{(key, client, candidates)};
      Finish(key, client, candidates, answers);
    }

    method Finish(key: SubKey, client: nat, candidates: seq<nat>, answers: Answers)
      requires Valid()
      modifies this`fetches, this`past, app.subs.Values, app.everyone.Values
      ensures Valid() && fetches == old(fetches) - multiset{(key, client)}
      ensures past == old(past) + [FetchEvent(key, client, FirstAnswer(candidates, answers))]
      ensures !IsParked(Lookup(app.View(), key).pending, client)
    {
      hide *;
      ghost var before := app.View();
      Opened();
      Conclude(key, client, candidates, answers);
      Happens(before, FetchEvent(key, client, FirstAnswer(candidates, answers)));
      Strike(key, client, FetchEvent(key, client, FirstAnswer(candidates, answers)));
    }

    /** The fetch is over. */
    method Strike(key: SubKey, client: nat, ghost event: Event)
      requires app.Valid() && app.View() == After(Started(|app.sources|), past + [event])
      requires NobodyStranded(app.View(), fetches - multiset{(key, client)})
      modifies this`fetches, this`past
      ensures Valid() && app.View() == old(app.View())
      ensures fetches == old(fetches) - multiset{(key, client)} && past == old(past) + [event]
    {
      hide NobodyStranded, After, AppState.Valid, AppState.View;
      fetches := fetches - multiset{(key, client)};
      past := past + [event];
    }

    method Conclude(key: SubKey, client: nat, candidates: seq<nat>, answers: Answers)
      requires Valid()
      modifies app.subs.Values, app.everyone.Values
      ensures app.Valid()
      ensures app.View() == Next(old(app.View()), FetchEvent(key, client, FirstAnswer(candidates, answers)))
      ensures NobodyStranded(app.View(), fetches - multiset{(key, client)})
      ensures !IsParked(Lookup(app.View(), key).pending, client)
    {
      hide *;
      Always();
      Opened();
      FetchEnds(app.View(), key, client, candidates, answers, fetches);
      FinishedIs(app.View(), key, client, FirstAnswer(candidates, answers));
      Listed(key);
      app.FetchSnapshot(key, client, candidates, answers);
    }

    method PinProbe(key: SubKey)
      requires Valid()
      modifies this`past, app, app.subs.Values, app.sources
      ensures Valid() && past == old(past) + [PinKey(key)]
    {
      hide NobodyStranded, After, AppState.Valid, AppState.View, Pinned;
      ghost var before := app.View();
      app.Pin(key);
      Quietly(before, PinKey(key));
      past := past + [PinKey(key)];
    }

    lemma Known(client: Client)
      requires Valid() && app.Knows(client)
      ensures client.id in app.View().peers && app.View().peers[client.id] == client.View()
    {
      app.KnownPeer(client);
    }

    lemma Linked(i: nat)
      requires i < |app.sources|
      ensures |app.View().links| == |app.sources| && app.View().links[i] == app.sources[i].View()
    {
      app.LinkAt(i);
    }

    lemma Opened()
      requires Valid()
      ensures app.Valid() && app.View() == After(Started(|app.sources|), past) && NobodyStranded(app.View(), fetches)
    {
    }

    lemma Listed(key: SubKey)
      ensures app.At(key) <= app.subs.Values
    {
    }

    lemma Happens(w: World, ev: Event)
      requires w == After(Started(|app.sources|), past)
      ensures Next(w, ev) == After(Started(|app.sources|), past + [ev])
    {
      hide Next;
      assert (past + [ev])[..|past|] == past;
    }

    /** An event that neither joins nor parks anyone needs no fetch. */
    lemma Quietly(w: World, ev: Event)
      requires w == After(Started(|app.sources|), past) && NobodyStranded(w, fetches)
      requires !ev.Subscribe? && !ev.LoseSource?
      ensures Next(w, ev) == After(Started(|app.sources|), past + [ev])
      ensures NobodyStranded(Next(w, ev), fetches)
    {
      hide *;
      Happens(w, ev);
      QuietStrandsNobody(w, ev, fetches);
    }

    lemma Sound()
      requires Valid()
      ensures ValidSources(app.sources)
    {
    }
  }

  function Losses(silent: seq<nat>): seq<Event> {
    seq(|silent|, i requires 0 <= i < |silent| => Event.LoseSource(silent[i]))
  }

  /** The registry once the sources are lost one after the other. */
  function LostAll(w: World, lost: seq<nat>): World {
    if lost == [] then w else SourceLost(LostAll(w, lost[..|lost| - 1]), lost[|lost| - 1])
  }

  /** How many fetches of a pair the losses make necessary. */
  function Due(w: World, lost: seq<nat>, k: SubKey, c: nat): nat {
    if lost == [] then 0
    else
      var n := |lost| - 1;
      Due(w, lost[..n], k, c) + multiset(Orphaned(k, Lookup(LostAll(w, lost[..n]), k), lost[n]))[c]
  }

  /** A fetch is spawned for every client that each loss leaves to be rebuilt, and for nobody else. */
  ghost predicate Gains(before: Fetches, after: Fetches, w: World, lost: seq<nat>) {
    forall k, c :: after[(k, c)] == before[(k, c)] + Due(w, lost, k, c)
  }

  lemma NothingGained(fetches: Fetches, w: World)
    ensures Gains(fetches, fetches, w, []) && LostAll(w, []) == w
  {
  }

  lemma GainsWork(fetches: Fetches, work: seq<(SubKey, nat)>, w: World, s: nat)
    requires forall k, c :: multiset(work)[(k, c)] == multiset(Orphaned(k, Lookup(w, k), s))[c]
    ensures Gains(fetches, fetches + multiset(work), w, [s])
  {
    hide Orphaned, Lookup;
    forall k, c ensures Due(w, [s], k, c) == multiset(Orphaned(k, Lookup(w, k), s))[c] {
      assert [s][..0] == [];
    }
  }

  lemma GainsNext(first: Fetches, before: Fetches, after: Fetches, w: World, lost: seq<nat>, n: nat)
    requires n < |lost| && Gains(first, before, w, lost[..n])
    requires Gains(before, after, LostAll(w, lost[..n]), [lost[n]])
    ensures Gains(first, after, w, lost[..n + 1])
    ensures LostAll(w, lost[..n + 1]) == SourceLost(LostAll(w, lost[..n]), lost[n])
  {
    hide Orphaned, Lookup, SourceLost;
    assert lost[..n + 1][..n] == lost[..n] && [lost[n]][..0] == [];
    forall k, c ensures after[(k, c)] == first[(k, c)] + Due(w, lost[..n + 1], k, c) {
      assert after[(k, c)] == before[(k, c)] + Due(LostAll(w, lost[..n]), [lost[n]], k, c);
    }
  }

  lemma UpdateIs(w: World, key: SubKey, m: Msg, now: nat)
    requires Routable(key, m.ord)
    ensures Next(w, Update(key, m, now)) == Updated(w, key, m, now)
  {
    hide Updated, Routable;
  }

  lemma ClientEvents(w: World, c: nat, key: SubKey, order: seq<SubKey>)
    requires c in w.peers
    ensures Next(w, Subscribe(c, key)) == Subscribed(w, c, key)
    ensures Next(w, Unsubscribe(c, key)) == Unsubscribed(w, c, key)
    ensures multiset(order) == multiset(w.peers[c].keys) ==> Next(w, Cleanup(c, order)) == CleanedUp(w, c, order)
  {
    hide Subscribed, Unsubscribed, CleanedUp;
  }

  lemma DisconnectKeepsEntries(w: World, i: nat)
    ensures forall k :: Lookup(Next(w, Disconnect(i)), k) == Lookup(w, k)
  {
  }

  lemma LossIs(w: World, s: nat)
    ensures Next(w, Event.LoseSource(s)) == SourceLost(w, s)
  {
    hide SourceLost;
  }

  /** How a fetch ends, as an event of the registry. */
  function FetchEvent(key: SubKey, c: nat, answer: Option<Msg>): Event {
    match answer
    case Some(m) => DeliverSnapshot(key, c, m)
    case None => FailPending(key, c)
  }

  lemma FetchEvents(w: World, key: SubKey, c: nat, candidates: seq<nat>, answers: Answers)
    ensures var answer := FirstAnswer(candidates, answers);
            Next(w, FetchEvent(key, c, answer)) == Finished(w, key, c, answer)
  {
    hide Answered, GivenUp;
    FirstAnswerExactly(candidates, answers);
  }

  lemma FinishedIs(w: World, key: SubKey, c: nat, answer: Option<Msg>)
    ensures answer.Some? ==> Finished(w, key, c, answer) == Answered(w, key, c, answer.value)
    ensures answer.None? ==> Finished(w, key, c, answer) == GivenUp(w, key, c)
  {
    hide Answered, GivenUp;
  }

  /** A fetch that ends takes its client off, and strands nobody else. */
  lemma FetchEnds(w: World, key: SubKey, c: nat, candidates: seq<nat>, answers: Answers, fetches: Fetches)
    requires RegistryInv(w) && NobodyStranded(w, fetches)
    ensures var end := FirstAnswer(candidates, answers);
            && Next(w, FetchEvent(key, c, end)) == Finished(w, key, c, end)
            && NobodyStranded(Finished(w, key, c, end), fetches - multiset{(key, c)})
            && !IsParked(Lookup(Finished(w, key, c, end), key).pending, c)
  {
    hide *;
    var end := FirstAnswer(candidates, answers);
    FetchEvents(w, key, c, candidates, answers);
    FinishedFetchStrandsNobody(w, key, c, end, fetches);
    FinishedIsGone(w, key, c, end);
  }

  lemma StartsStrandingNobody(sources: nat)
    ensures NobodyStranded(Started(sources), multiset{})
  {
  }

  lemma FinishedIsGone(w: World, key: SubKey, c: nat, answer: Option<Msg>)
    requires RegistryInv(w)
    ensures !IsParked(Lookup(Finished(w, key, c, answer), key).pending, c)
  {
    hide Finished, FinishedEntry, RegistryInv, Lookup, IsParked;
    FinishedView(w, key, c, answer, key);
    NeverWaitsAfter(w, key, c, answer);
  }

  lemma NeverWaitsAfter(w: World, key: SubKey, c: nat, answer: Option<Msg>)
    requires RegistryInv(w)
    ensures !IsParked(FinishedEntry(key, Lookup(w, key), c, answer).pending, c)
  {
    hide Lookup, RegistryInv, WellFormed, Removed, IsParked;
    var e := Lookup(w, key);
    RegistryWellFormed(w, key);
    if IsParked(e.pending, c) {
      TakenOffIsGone(key, e, c);
      TakenOffEntry(key, e, c, answer);
    } else {
      NotParkedStays(key, e, c, answer);
    }
  }

  lemma TakenOffEntry(key: SubKey, e: Entry, c: nat, answer: Option<Msg>)
    requires IsParked(e.pending, c)
    ensures FinishedEntry(key, e, c, answer).pending == Removed(e.pending, Position(e.pending, c))
  {
  }
}
