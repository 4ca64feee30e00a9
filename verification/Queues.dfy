/** What a client's queue holds: everything it took, and every acknowledgement, less what its writer passed
on; and a closed queue takes nothing. */
module Queues {
  import opened Wire
  import opened Arbiter
  import opened Entries
  import opened Registry
  import opened Membership
  import opened Delivery

  /** How many messages the writer takes off the client's queue in a step. */
  ghost function TakenBy(w: World, ev: Event, c: nat): nat {
    if ev.Drain? && ev.client == c && c in w.peers then
      if ev.n <= w.peers[c].queued then ev.n else w.peers[c].queued
    else 0
  }

  /** Whether an acknowledgement or a pong finds room in the client's queue. */
  ghost function AckedBy(w: World, ev: Event, c: nat): nat {
    if ev == Chatter(c) && c in w.peers && w.peers[c].open && w.peers[c].queued < 65_536 then 1 else 0
  }

  ghost function Taken(w: World, evs: seq<Event>, c: nat): nat {
    if evs == [] then 0
    else
      var n := |evs| - 1;
      Taken(w, evs[..n], c) + TakenBy(After(w, evs[..n]), evs[n], c)
  }

  ghost function Acked(w: World, evs: seq<Event>, c: nat): nat {
    if evs == [] then 0
    else
      var n := |evs| - 1;
      Acked(w, evs[..n], c) + AckedBy(After(w, evs[..n]), evs[n], c)
  }

  /** The queue went from one state to the other by taking data, acknowledgements, and being drained. */
  ghost predicate Conserves(p: Peer, n: Peer, taken: nat, acked: nat) {
    && p.log <= n.log && n.queued + taken + |p.log| == p.queued + acked + |n.log|
    && (!p.open ==> n.log == p.log && acked == 0)
  }

  lemma {:induction false} BacklogConserves(p: Peer, key: SubKey, msgs: seq<Msg>)
    ensures Conserves(p, SentBacklog(p, key, msgs), 0, 0) && SentBacklog(p, key, msgs).open == p.open
    decreases |msgs|
  {
    if msgs != [] && Accepts(p) {
      BacklogConserves(Enqueued(p, Out(key, msgs[0])), key, msgs[1..]);
    }
  }

  lemma {:induction false} FanOutKeepsOpen(peers: Peers, ids: seq<nat>, o: Out, incremental: bool, c: nat)
    requires c in peers
    ensures c in FannedOut(peers, ids, o, incremental)
    ensures FannedOut(peers, ids, o, incremental)[c].open == peers[c].open
  {
    if ids != [] {
      FanOutKeepsOpen(peers, ids[..|ids| - 1], o, incremental, c);
    }
  }

  lemma FrameConserves(w: World, key: SubKey, m: Msg, now: nat, c: nat)
    requires RegistryInv(w) && c in w.peers
    ensures c in Updated(w, key, m, now).peers
    ensures Conserves(w.peers[c], Updated(w, key, m, now).peers[c], 0, 0)
    ensures Updated(w, key, m, now).peers[c].open == w.peers[c].open
  {
    FrameIsAccountedFor(w, key, m, now, c);
    hide RegistryInv, FannedOut, Evicted, Ruled, UpdateEntry;
    var killed := Killed(w.peers, Evicted(key, Lookup(w, key), m, now));
    assert c in killed && killed[c].open == w.peers[c].open;
    FanOutKeepsOpen(killed, Lookup(w, key).subscribers, Out(key, m), key.IsIncremental(), c);
  }

  lemma ClientConserves(w: World, ev: Event, c: nat)
    requires (ev.Unsubscribe? || ev.Cleanup?) && c in w.peers
    ensures c in Next(w, ev).peers && Conserves(w.peers[c], Next(w, ev).peers[c], 0, 0)
    ensures Next(w, ev).peers[c].open == w.peers[c].open
  {
    hide Detached, DetachedAll, CleanedUp, Lookup, LeaveEntry;
    if Enabled(w, ev) {
      match ev
      case Unsubscribe(d, key) =>
        if key in w.peers[d].keys {
          DetachedView(WithKeys(w, d, w.peers[d].keys - {key}), d, key, key);
        }
      case Cleanup(d, order) =>
        CleanedUpPeers(w, d, order);
    }
  }

  lemma OtherwiseConserves(w: World, ev: Event, c: nat)
    requires c in w.peers && c != w.nextId && !ev.Update? && !ev.Unsubscribe? && !ev.Cleanup?
    ensures c in Next(w, ev).peers
    ensures Conserves(w.peers[c], Next(w, ev).peers[c], TakenBy(w, ev, c), AckedBy(w, ev, c))
    ensures Next(w, ev).peers[c].open <==> w.peers[c].open && ev != CloseQueue(c)
  {
    hide JoinEntry, PinEntry, LoseEntry, AnswerEntry, GiveUpEntry, AnswerFor, SentBacklog, IsParked, Queued, Live;
    hide Lookup;
    if ev.DeliverSnapshot? && ev.client == c {
      BacklogConserves(w.peers[c], ev.key, AnswerFor(ev.key, Lookup(w, ev.key), c, ev.snapshot));
      AnsweredPeer(w, ev.key, c, ev.snapshot);
    }
  }

  lemma AnsweredPeer(w: World, key: SubKey, c: nat, snapshot: Msg)
    requires c in w.peers
    ensures var n := Answered(w, key, c, snapshot);
            && n.peers.Keys == w.peers.Keys
            && n.peers[c] in {w.peers[c], SentBacklog(w.peers[c], key, AnswerFor(key, Lookup(w, key), c, snapshot))}
  {
    hide AnswerEntry, AnswerFor, SentBacklog, IsParked;
  }

  lemma StepConserves(w: World, ev: Event, c: nat)
    requires RegistryInv(w) && c in w.peers
    ensures c in Next(w, ev).peers
    ensures Conserves(w.peers[c], Next(w, ev).peers[c], TakenBy(w, ev, c), AckedBy(w, ev, c))
    ensures Next(w, ev).peers[c].open <==> w.peers[c].open && ev != CloseQueue(c)
  {
    hide Conserves, Updated, KeyInv;
    if ev.Update? {
      if Enabled(w, ev) {
        FrameConserves(w, ev.key, ev.msg, ev.now, c);
      } else {
        NothingConserves(w.peers[c]);
      }
    } else if ev.Unsubscribe? || ev.Cleanup? {
      ClientConserves(w, ev, c);
    } else {
      OtherwiseConserves(w, ev, c);
    }
  }

  lemma NothingConserves(p: Peer)
    ensures Conserves(p, p, 0, 0)
  {
  }

  lemma UpdateAddsNobody(w: World, key: SubKey, m: Msg, now: nat)
    ensures forall d :: d in Updated(w, key, m, now).peers <==> d in w.peers
  {
    hide Updated;
    UpdateKeepsHolders(w, key, m, now);
    forall d ensures d in Updated(w, key, m, now).peers <==> d in w.peers {
      assert d in Updated(w, key, m, now).peers.Keys <==> d in w.peers.Keys;
    }
  }

  lemma Newcomer(w: World, ev: Event, c: nat)
    requires RegistryInv(w) && c !in w.peers && c in Next(w, ev).peers
    ensures Next(w, ev).peers[c] == NEW_PEER && TakenBy(w, ev, c) == 0 && AckedBy(w, ev, c) == 0
  {
    hide Detached, DetachedAll, CleanedUp, KeyInv, JoinEntry, LeaveEntry, UpdateEntry, Ruled, Evicted, AnswerFor;
    hide SentBacklog, Lookup, FannedOut, Killed;
    if Enabled(w, ev) {
      match ev
      case Update(key, m, now) =>
        UpdateAddsNobody(w, key, m, now);
      case Unsubscribe(d, key) =>
        if key in w.peers[d].keys {
          DetachedView(WithKeys(w, d, w.peers[d].keys - {key}), d, key, key);
        }
      case Cleanup(d, order) =>
        CleanedUpPeers(w, d, order);
      case _ =>
    }
  }

  lemma {:induction false} StrangersTakeNothing(w: World, evs: seq<Event>, c: nat)
    requires RegistryInv(w) && c !in After(w, evs).peers
    ensures Taken(w, evs, c) == 0 && Acked(w, evs, c) == 0
  {
    hide Next, TakenBy, AckedBy, RegistryInv;
    if evs != [] {
      var n := |evs| - 1;
      RunKeepsRegistry(w, evs[..n]);
      if c in After(w, evs[..n]).peers {
        StepConserves(After(w, evs[..n]), evs[n], c);
      } else {
        StrangersTakeNothing(w, evs[..n], c);
        NoQueueYet(After(w, evs[..n]), evs[n], c);
      }
    }
  }

  lemma NoQueueYet(w: World, ev: Event, c: nat)
    requires c !in w.peers
    ensures TakenBy(w, ev, c) == 0 && AckedBy(w, ev, c) == 0
  {
  }

  /** Over every run of the registry, what a client's queue holds and what its writer passed on are together
      the data it took and the acknowledgements it had room for. */
  lemma {:induction false} QueueConserved(sources: nat, evs: seq<Event>, c: nat)
    requires c in After(Started(sources), evs).peers
    ensures var (start, p) := (Started(sources), After(Started(sources), evs).peers[c]);
            p.queued + Taken(start, evs, c) == |p.log| + Acked(start, evs, c)
  {
    hide Next, TakenBy, AckedBy, RegistryInv;
    var start := Started(sources);
    StartsRegistry(sources);
    if evs != [] {
      var n := |evs| - 1;
      var before := After(start, evs[..n]);
      RunKeepsRegistry(start, evs[..n]);
      if c in before.peers {
        QueueConserved(sources, evs[..n], c);
        StepConserves(before, evs[n], c);
      } else {
        StrangersTakeNothing(start, evs[..n], c);
        Newcomer(before, evs[n], c);
      }
    }
  }

  /** A queue stays open until it is closed, and once closed it takes nothing more. */
  lemma {:induction false} ClosedForGood(w: World, evs: seq<Event>, c: nat)
    requires RegistryInv(w) && c in w.peers
    ensures c in After(w, evs).peers
    ensures After(w, evs).peers[c].open <==> w.peers[c].open && CloseQueue(c) !in evs
    ensures !w.peers[c].open ==> After(w, evs).peers[c].log == w.peers[c].log
  {
    hide Next, TakenBy, AckedBy, RegistryInv;
    if evs != [] {
      var n := |evs| - 1;
      ClosedForGood(w, evs[..n], c);
      RunKeepsRegistry(w, evs[..n]);
      StepConserves(After(w, evs[..n]), evs[n], c);
      assert evs == evs[..n] + [evs[n]];
    }
  }
}
