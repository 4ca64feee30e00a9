/** No silent hole: what a client's queue has taken for a key is what the arbiter offered it, in order,
unless the client is being hung up. With that, what is proved of streams holds of what clients get. */
module Delivery {
  import opened Wire
  import opened Books
  import opened Arbiter
  import opened Entries
  import opened Streams
  import opened Epochs
  import opened DiffStream
  import opened L4Check
  import opened L4Stream
  import opened Opening
  import opened Registry
  import opened Membership

  /** The data of one key in a client's queue, over its whole life. */
  function KeyLog(log: seq<Out>, k: SubKey): seq<Msg> {
    if log == [] then []
    else
      var n := |log| - 1;
      KeyLog(log[..n], k) + if log[n].key == k then [log[n].msg] else []
  }

  lemma KeyLogAppend(log: seq<Out>, o: Out, k: SubKey)
    ensures KeyLog(log + [o], k) == KeyLog(log, k) + if o.key == k then [o.msg] else []
  {
    assert (log + [o])[..|log|] == log;
  }

  // ---------- Sending ----------

  /** A fan-out reaches each client it names once, and nobody else. */
  lemma {:induction false} FannedOutAt(peers: Peers, ids: seq<nat>, o: Out, incremental: bool, c: nat)
    requires c in peers && multiset(ids)[c] <= 1
    ensures c in FannedOut(peers, ids, o, incremental)
    ensures FannedOut(peers, ids, o, incremental)[c] == if c in ids then Sent(peers[c], o, incremental) else peers[c]
  {
    hide Sent;
    if ids != [] {
      var n := |ids| - 1;
      assert ids == ids[..n] + [ids[n]];
      FannedOutAt(peers, ids[..n], o, incremental, c);
      assert c in ids[..n] ==> c in multiset(ids[..n]);
    }
  }

  /** A backlog that did not get the client hung up went into the queue whole. */
  lemma {:induction false} BacklogGoesInWhole(p: Peer, key: SubKey, msgs: seq<Msg>, k: SubKey)
    requires !SentBacklog(p, key, msgs).kill
    ensures KeyLog(SentBacklog(p, key, msgs).log, k) == KeyLog(p.log, k) + if k == key then msgs else []
    decreases |msgs|
  {
    if msgs != [] && Accepts(p) {
      BacklogGoesInWhole(Enqueued(p, Out(key, msgs[0])), key, msgs[1..], k);
      KeyLogAppend(p.log, Out(key, msgs[0]), k);
      assert msgs == [msgs[0]] + msgs[1..];
    }
  }

  lemma StreamOfAtMostOne(k: SubKey, e: Entry, evs: seq<KeyEvent>, c: nat)
    requires |evs| <= 1
    ensures Stream(k, e, evs, c) == if evs == [] then [] else Offers(k, e, evs[0], c)
  {
    hide Offers, KeyStep;
    if evs != [] {
      assert evs[..0] == [];
    }
  }

  lemma UpdateDelivers(w: World, key: SubKey, m: Msg, now: nat, k: SubKey, c: nat)
    requires multiset(Lookup(w, key).subscribers)[c] <= 1 && k.IsIncremental()
    requires c in w.peers && c in Updated(w, key, m, now).peers && !Updated(w, key, m, now).peers[c].kill
    ensures KeyLog(Updated(w, key, m, now).peers[c].log, k)
         == KeyLog(w.peers[c].log, k) + if k == key then Offers(k, Lookup(w, k), Arrive(m, now), c) else []
  {
    hide UpdateEntry, Evicted, Ruled, FannedOut, KeyLog;
    var e := Lookup(w, key);
    var killed := Killed(w.peers, Evicted(key, e, m, now));
    assert c in killed && killed[c].log == w.peers[c].log;
    FannedOutAt(killed, e.subscribers, Out(key, m), key.IsIncremental(), c);
    KeyLogAppend(w.peers[c].log, Out(key, m), k);
  }

  lemma AnswerDelivers(w: World, key: SubKey, c: nat, snapshot: Msg, k: SubKey, d: nat)
    requires d in w.peers && d in Answered(w, key, c, snapshot).peers && !Answered(w, key, c, snapshot).peers[d].kill
    ensures KeyLog(Answered(w, key, c, snapshot).peers[d].log, k)
         == KeyLog(w.peers[d].log, k)
          + if k == key && c in w.peers then Offers(k, Lookup(w, k), Answer(c, snapshot), d) else []
  {
    hide AnswerEntry, Backlog, KeyLog, SentBacklog, Position;
    assert Position([], c) == 0;
    if c == d {
      if !SentBacklog(w.peers[c], key, AnswerFor(key, Lookup(w, key), c, snapshot)).kill {
        BacklogGoesInWhole(w.peers[c], key, AnswerFor(key, Lookup(w, key), c, snapshot), k);
      }
    }
  }

  /** Clients are never forgotten, and a client to be hung up stays one. */
  lemma PeersGrow(w: World, ev: Event, c: nat)
    requires RegistryInv(w) && c in w.peers
    ensures c in Next(w, ev).peers
    ensures w.peers[c].kill ==> Next(w, ev).peers[c].kill
  {
    hide LeaveEntry, JoinEntry, UpdateEntry, DetachedAll, Detached, CleanedUp, AnswerFor, Lookup, Updated;
    hide Answered, KeyInv;
    if Enabled(w, ev) {
      match ev
      case Update(key, m, now) =>
        UpdateKeepsHolders(w, key, m, now);
        assert c in w.peers.Keys && c in Updated(w, key, m, now).peers.Keys;
      case Unsubscribe(d, key) =>
        if key in w.peers[d].keys {
          DetachedView(WithKeys(w, d, w.peers[d].keys - {key}), d, key, key);
        }
      case Cleanup(d, order) =>
        CleanedUpPeers(w, d, order);
      case DeliverSnapshot(key, d, snapshot) =>
        AnsweredPeers(w, key, d, snapshot, c);
      case _ =>
    }
  }

  lemma AnsweredPeers(w: World, key: SubKey, d: nat, snapshot: Msg, c: nat)
    requires c in w.peers
    ensures c in Answered(w, key, d, snapshot).peers
    ensures w.peers[c].kill ==> Answered(w, key, d, snapshot).peers[c].kill
  {
    hide AnswerEntry, AnswerFor, SentBacklog, IsParked;
    if d in w.peers {
      BacklogKeepsKeys(w.peers[d], key, AnswerFor(key, Lookup(w, key), d, snapshot));
    }
  }

  lemma OthersDeliverNothing(w: World, ev: Event, k: SubKey, c: nat)
    requires RegistryInv(w) && c in w.peers && c in Next(w, ev).peers
    requires !ev.Update? && !ev.DeliverSnapshot?
    ensures Next(w, ev).peers[c].log == w.peers[c].log
    ensures Stream(k, Lookup(w, k), Project(w, ev, k), c) == []
  {
    hide LeaveEntry, JoinEntry, DetachedAll, Detached, CleanedUp, Lookup, KeyInv, LoseEntry;
    hide Run, Stream, IsParked, Evicted, AnswerFor;
    StepView(w, ev, k);
    StreamOfAtMostOne(k, Lookup(w, k), Project(w, ev, k), c);
    if Enabled(w, ev) {
      match ev
      case Unsubscribe(d, key) =>
        if key in w.peers[d].keys {
          DetachedView(WithKeys(w, d, w.peers[d].keys - {key}), d, key, key);
        }
      case Cleanup(d, order) =>
        CleanedUpPeers(w, d, order);
      case _ =>
    }
  }

  lemma OneSubscription(w: World, key: SubKey, c: nat)
    requires RegistryInv(w)
    ensures multiset(Lookup(w, key).subscribers)[c] <= 1
  {
    RegistryWellFormed(w, key);
    assert multiset(Listed(Lookup(w, key)))[c] <= 1;
  }

  /** Every step either hangs the client up or puts into its queue exactly what it was offered. */
  lemma StepDelivers(w: World, ev: Event, k: SubKey, c: nat)
    requires RegistryInv(w) && k.IsIncremental()
    requires c in w.peers && c in Next(w, ev).peers && !Next(w, ev).peers[c].kill
    ensures KeyLog(Next(w, ev).peers[c].log, k)
         == KeyLog(w.peers[c].log, k) + Stream(k, Lookup(w, k), Project(w, ev, k), c)
  {
    hide Updated, Answered, Lookup, KeyLog, Stream, Offers, Run, RegistryInv;
    StepView(w, ev, k);
    StreamOfAtMostOne(k, Lookup(w, k), Project(w, ev, k), c);
    if ev.Update? {
      if Enabled(w, ev) {
        OneSubscription(w, ev.key, c);
        UpdateDelivers(w, ev.key, ev.msg, ev.now, k, c);
      }
    } else if ev.DeliverSnapshot? {
      if Enabled(w, ev) {
        AnswerDelivers(w, ev.key, ev.client, ev.snapshot, k, c);
      }
    } else {
      OthersDeliverNothing(w, ev, k, c);
    }
  }

  /** No silent hole, over whole runs and across attaching, parking and rebuilding: for an incremental
      key a client that was never to be hung up has taken into its queue exactly what it was offered
      since, in order. What it is offered is its snapshot with its backlog, then every frame forwarded
      while it is attached (`AttachedHearsEverything`, `WaitingHoldsEverything`). */
  lemma {:induction false} NoSilentHole(w: World, evs: seq<Event>, k: SubKey, c: nat)
    requires RegistryInv(w) && k.IsIncremental() && c in w.peers
    ensures c in After(w, evs).peers
    ensures After(w, evs).peers[c].kill
         || KeyLog(After(w, evs).peers[c].log, k)
            == KeyLog(w.peers[c].log, k) + Stream(k, Lookup(w, k), ProjectRun(w, evs, k), c)
    ensures w.peers[c].kill ==> After(w, evs).peers[c].kill
  {
    hide Next, Project, Lookup, RegistryInv, KeyLog, Stream, Run;
    if evs == [] {
      StreamOfAtMostOne(k, Lookup(w, k), [], c);
    } else {
      var n := |evs| - 1;
      var before := After(w, evs[..n]);
      NoSilentHole(w, evs[..n], k, c);
      RunKeepsRegistry(w, evs[..n]);
      PeersGrow(before, evs[n], c);
      if !After(w, evs).peers[c].kill {
        StepDelivers(before, evs[n], k, c);
        RunView(w, evs[..n], k);
        StreamSplit(k, Lookup(w, k), ProjectRun(w, evs[..n], k), Project(before, evs[n], k), c);
      }
    }
  }

  /** While a client stays attached, its queue takes every frame forwarded for the key, in order, and no
      other frame of it. */
  lemma AttachedQueueTakesEverything(w: World, evs: seq<Event>, k: SubKey, c: nat)
    requires RegistryInv(w) && k.IsIncremental() && c in w.peers && c in Lookup(w, k).subscribers
    requires Undisturbed(k, Lookup(w, k), ProjectRun(w, evs, k), c)
    ensures c in After(w, evs).peers && c in Lookup(After(w, evs), k).subscribers
    ensures After(w, evs).peers[c].kill
         || KeyLog(After(w, evs).peers[c].log, k)
            == KeyLog(w.peers[c].log, k) + Forwarded(k, Lookup(w, k), ProjectRun(w, evs, k))
  {
    hide After, ProjectRun, Lookup, RegistryInv, KeyLog, Stream, Run, Forwarded, Undisturbed, WellFormed, LegalRun;
    NoSilentHole(w, evs, k, c);
    RunView(w, evs, k);
    ProjectedRunIsLegal(w, evs, k);
    AttachedHearsEverything(k, Lookup(w, k), ProjectRun(w, evs, k), c);
  }

  /** What one frame does to one client, whatever the channel: a forwarded frame goes into an attached
      client's queue or is counted as dropped, and a client is newly to be hung up exactly when its
      backlog was evicted, or when the channel is incremental and its queue refused the frame. */
  lemma FrameIsAccountedFor(w: World, key: SubKey, m: Msg, now: nat, c: nat)
    requires RegistryInv(w) && c in w.peers
    ensures var (e, n) := (Lookup(w, key), Updated(w, key, m, now));
            var due := Ruled(key, e, m, now).deliver && c in e.subscribers;
            var room := w.peers[c].open && w.peers[c].queued < 65_536;
            && c in n.peers
            && n.peers[c].log == w.peers[c].log + (if due && room then [Out(key, m)] else [])
            && n.peers[c].queued == w.peers[c].queued + (if due && room then 1 else 0)
            && n.peers[c].dropped == w.peers[c].dropped + (if due && !room then 1 else 0)
            && (n.peers[c].kill <==>
                  || w.peers[c].kill
                  || c in Evicted(key, e, m, now)
                  || (due && !room && (key.L4Book? || key.L2Diff?)))
  {
    hide UpdateEntry, Evicted, Ruled, FannedOut, RegistryInv;
    var e := Lookup(w, key);
    var killed := Killed(w.peers, Evicted(key, e, m, now));
    OneSubscription(w, key, c);
    assert c in killed;
    FannedOutAt(killed, e.subscribers, Out(key, m), key.IsIncremental(), c);
  }

  // ---------- Bounded queues ----------

  ghost predicate Roomy(peers: Peers) {
    forall c <- peers :: peers[c].queued <= CLIENT_QUEUE
  }

  lemma {:induction false} FanOutStaysRoomy(peers: Peers, ids: seq<nat>, o: Out, incremental: bool)
    requires Roomy(peers)
    ensures Roomy(FannedOut(peers, ids, o, incremental))
  {
    if ids != [] {
      FanOutStaysRoomy(peers, ids[..|ids| - 1], o, incremental);
    }
  }

  lemma {:induction false} BacklogStaysRoomy(p: Peer, key: SubKey, msgs: seq<Msg>)
    requires p.queued <= CLIENT_QUEUE
    ensures SentBacklog(p, key, msgs).queued <= CLIENT_QUEUE
    decreases |msgs|
  {
    if msgs != [] && Accepts(p) {
      BacklogStaysRoomy(Enqueued(p, Out(key, msgs[0])), key, msgs[1..]);
    }
  }

  lemma UpdateStaysRoomy(w: World, key: SubKey, m: Msg, now: nat)
    requires Roomy(w.peers)
    ensures Roomy(Updated(w, key, m, now).peers)
  {
    hide UpdateEntry, Evicted, Ruled, FannedOut;
    var killed := Killed(w.peers, Evicted(key, Lookup(w, key), m, now));
    FanOutStaysRoomy(killed, Lookup(w, key).subscribers, Out(key, m), key.IsIncremental());
  }

  lemma AnswerStaysRoomy(w: World, key: SubKey, c: nat, snapshot: Msg)
    requires Roomy(w.peers)
    ensures Roomy(Answered(w, key, c, snapshot).peers)
  {
    hide AnswerEntry, AnswerFor, SentBacklog, IsParked;
    if c in w.peers {
      BacklogStaysRoomy(w.peers[c], key, AnswerFor(key, Lookup(w, key), c, snapshot));
    }
  }

  lemma StepStaysRoomy(w: World, ev: Event)
    requires Roomy(w.peers)
    ensures Roomy(Next(w, ev).peers)
  {
    hide LeaveEntry, JoinEntry, DetachedAll, Detached, CleanedUp, Lookup, Updated, Answered, IsParked;
    if Enabled(w, ev) {
      match ev
      case Update(key, m, now) =>
        UpdateStaysRoomy(w, key, m, now);
      case DeliverSnapshot(key, c, snapshot) =>
        AnswerStaysRoomy(w, key, c, snapshot);
      case Unsubscribe(d, key) =>
        if key in w.peers[d].keys {
          DetachedView(WithKeys(w, d, w.peers[d].keys - {key}), d, key, key);
        }
      case Cleanup(d, order) =>
        CleanedUpPeers(w, d, order);
      case _ =>
    }
  }

  /** No client's queue ever outgrows its bound, however slow its writer. */
  lemma {:induction false} QueuesStayBounded(sources: nat, evs: seq<Event>)
    ensures Roomy(After(Started(sources), evs).peers)
  {
    hide Next;
    if evs != [] {
      hide Roomy;
      QueuesStayBounded(sources, evs[..|evs| - 1]);
      StepStaysRoomy(After(Started(sources), evs[..|evs| - 1]), evs[|evs| - 1]);
    }
  }

  // ---------- From the start ----------

  lemma StrangersAreOfferedNothing(w: World, ev: Event, k: SubKey, c: nat)
    requires RegistryInv(w) && c !in w.peers
    ensures Stream(k, Lookup(w, k), Project(w, ev, k), c) == []
    ensures c in Next(w, ev).peers ==> Next(w, ev).peers[c].log == []
  {
    hide Lookup, Stream, Run, Listed, WellFormed, Next;
    StepView(w, ev, k);
    StreamOfAtMostOne(k, Lookup(w, k), Project(w, ev, k), c);
    assert KeyInv(k, Lookup(w, k), Holders(w, k), HungUp(w));
    assert c !in Listed(Lookup(w, k));
    NotListedNotServed(Lookup(w, k), c);
    StrangersAppearEmpty(w, ev, c);
  }

  lemma NotListedNotServed(e: Entry, c: nat)
    requires c !in Listed(e)
    ensures c !in e.subscribers
  {
  }

  lemma StrangersAppearEmpty(w: World, ev: Event, c: nat)
    requires c !in w.peers
    ensures c in Next(w, ev).peers ==> Next(w, ev).peers[c].log == []
  {
    hide LeaveEntry, JoinEntry, UpdateEntry, DetachedAll, Detached, CleanedUp, AnswerFor, Lookup, Updated, IsParked;
    if Enabled(w, ev) {
      match ev
      case Update(key, m, now) =>
        UpdateKeepsHolders(w, key, m, now);
        assert c !in w.peers.Keys && c !in Updated(w, key, m, now).peers.Keys;
      case Unsubscribe(d, key) =>
        if key in w.peers[d].keys {
          DetachedView(WithKeys(w, d, w.peers[d].keys - {key}), d, key, key);
        }
      case Cleanup(d, order) =>
        CleanedUpPeers(w, d, order);
      case _ =>
    }
  }

  /** Over every run of the registry from its start: the whole of what a client has been queued for an
      incremental key, unless it is to be hung up, is its stream along the key's own run. */
  lemma {:induction false} QueueIsTheStream(sources: nat, evs: seq<Event>, k: SubKey, c: nat)
    requires k.IsIncremental()
    ensures var (w, s) := (After(Started(sources), evs), Stream(k, EMPTY, ProjectRun(Started(sources), evs, k), c));
            if c in w.peers then w.peers[c].kill || KeyLog(w.peers[c].log, k) == s else s == []
  {
    hide Next, Project, RegistryInv, KeyLog, Stream, Run, Lookup;
    var start := Started(sources);
    assert Lookup(start, k) == EMPTY by { StartsEmpty(sources, k); }
    StartsRegistry(sources);
    if evs == [] {
      StreamOfAtMostOne(k, EMPTY, [], c);
    } else {
      var n := |evs| - 1;
      var before := After(start, evs[..n]);
      QueueIsTheStream(sources, evs[..n], k, c);
      RunKeepsRegistry(start, evs[..n]);
      RunView(start, evs[..n], k);
      StreamSplit(k, EMPTY, ProjectRun(start, evs[..n], k), Project(before, evs[n], k), c);
      if c in before.peers {
        PeersGrow(before, evs[n], c);
        if !After(start, evs).peers[c].kill {
          StepDelivers(before, evs[n], k, c);
        }
      } else {
        StrangersAreOfferedNothing(before, evs[n], k, c);
        NothingLogged(k);
      }
    }
  }

  lemma NothingLogged(k: SubKey)
    ensures KeyLog([], k) == []
  {
  }

  lemma StartsEmpty(sources: nat, k: SubKey)
    ensures Lookup(Started(sources), k) == EMPTY
  {
  }

  // ---------- End to end ----------

  /** What an `l4Book` client has been queued passes the stream checker, in any run of the whole
      registry that meets the checker's conditions for that key and client, unless the client is to be
      hung up. */
  lemma QueuedL4StreamPasses(sources: nat, evs: seq<Event>, key: SubKey, c: nat)
    requires key.L4Book? && c in After(Started(sources), evs).peers
    requires Prompt(key, EMPTY, ProjectRun(Started(sources), evs, key))
    requires CalmRun(key, EMPTY, ProjectRun(Started(sources), evs, key), c)
    ensures var p := After(Started(sources), evs).peers[c];
            p.kill || (Judged(Items(KeyLog(p.log, key))).violations == [] && SegmentsOrdered(Items(KeyLog(p.log, key))))
  {
    hide Prompt, CalmRun, After, ProjectRun, Judged, Items, KeyLog, SegmentsOrdered, RegistryInv, WellFormed, LegalRun;
    QueueIsTheStream(sources, evs, key, c);
    StartsRegistry(sources);
    StartsEmpty(sources, key);
    ProjectedRunIsLegal(Started(sources), evs, key);
    L4StreamPasses(key, ProjectRun(Started(sources), evs, key), c);
  }

  /** What an `l2Diff` client has been queued since it was attached to a leaderless entry rebuilds the
      leader's own book after each of the leader's frames, in any run of the whole registry in which
      the leader is neither lost nor replaced and the client stays, unless the client is to be hung up. */
  lemma QueuedL2DiffRebuildsTheLeadersBook(
      w: World, evs: seq<Event>, key: SubKey, c: nat, nodes: nat -> Node)
    requires RegistryInv(w) && key.L2Diff? && c in w.peers
    requires KeyLog(w.peers[c].log, key) == []
    requires Lookup(w, key).arb.leader.None? && c in Lookup(w, key).subscribers
    requires var run := ProjectRun(w, evs, key);
             && LeaderStays(key, Lookup(w, key), run) && Leave(c) !in run && NobodySteals(key, Lookup(w, key), run)
             && Scripted(key, nodes, run)
    requires forall s :: Steady(nodes(s))
    ensures var n := After(w, evs);
            && c in n.peers
            && (n.peers[c].kill ||
                var got := KeyLog(n.peers[c].log, key);
                match Lookup(n, key).arb.leader
                case None => got == []
                case Some(l) =>
                  && |got| == SentBy(ProjectRun(w, evs, key), l)
                  && ClientBook(got) == if got == [] then None else Some(nodes(l).BookAt(|got| - 1)))
  {
    hide LeaderStays, NobodySteals, Scripted, After, ProjectRun, KeyLog, RegistryInv, WellFormed, LegalRun;
    hide Steady, ClientBook, SentBy, Frames, Lookup, Run, Stream;
    NoSilentHole(w, evs, key, c);
    RunView(w, evs, key);
    ProjectedRunIsLegal(w, evs, key);
    ClientRebuildsTheLeadersBook(key, nodes, Lookup(w, key), ProjectRun(w, evs, key), c);
    var stream := Stream(key, Lookup(w, key), ProjectRun(w, evs, key), c);
    assert [] + stream == stream;
  }
}
