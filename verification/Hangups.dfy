/** Why a client is hung up, and which frames it misses otherwise: read off its queue, what is held for it,
and the fetches that failed. */
module Hangups {
  import opened Wire
  import opened Arbiter
  import opened Entries
  import opened Streams
  import opened Registry
  import opened Membership
  import opened Delivery
  import opened Queues

  // ---------- One event ----------

  /** The client's queue has no room for this many more messages. */
  predicate NoRoomFor(p: Peer, count: nat) {
    !p.open || p.queued + count > 65_536
  }

  /** A frame is to go into the client's queue, and the queue refuses it; or the messages of an answer are,
      and it refuses one of them. Each time one message is counted as dropped. */
  ghost predicate RefusedBy(w: World, ev: Event, c: nat) {
    && c in w.peers
    && match ev
       case Update(key, m, now) =>
         && Routable(key, m.ord) && Ruled(key, Lookup(w, key), m, now).deliver
         && c in Lookup(w, key).subscribers && NoRoomFor(w.peers[c], 1)
       case DeliverSnapshot(key, d, snapshot) =>
         && d == c && snapshot.ord.Snapshot? && IsParked(Lookup(w, key).pending, c)
         && NoRoomFor(w.peers[c], |AnswerFor(key, Lookup(w, key), c, snapshot)|)
       case _ => false
  }

  /** What gets a client hung up: a refusal on an incremental channel, a backlog of more than 64 MiB, or a
      snapshot that nobody could be asked for. */
  ghost predicate HungUpBy(w: World, ev: Event, c: nat) {
    && c in w.peers
    && match ev
       case Update(key, m, now) =>
         var e := Lookup(w, key);
         && (key.L4Book? || key.L2Diff?)
         && (|| RefusedBy(w, ev, c)
             || (&& Routable(key, m.ord) && Ruled(key, e, m, now).deliver && IsParked(e.pending, c)
                 && TotalLen(HeldBehind(e, c)) + m.payload.len > 64 * 1024 * 1024))
       case DeliverSnapshot(_, _, _) => RefusedBy(w, ev, c)
       case FailPending(key, d) => d == c && IsParked(Lookup(w, key).pending, c)
       case _ => false
  }

  /** The peer's marks moved by exactly these. */
  ghost predicate Marked(p: Peer, n: Peer, hungUp: bool, refused: bool) {
    && (n.kill <==> p.kill || hungUp)
    && n.dropped == p.dropped + if refused then 1 else 0
  }

  lemma {:induction false} BacklogMarks(p: Peer, key: SubKey, msgs: seq<Msg>)
    ensures var refused := msgs != [] && NoRoomFor(p, |msgs|);
            Marked(p, SentBacklog(p, key, msgs), refused, refused)
    decreases |msgs|
  {
    if msgs != [] && Accepts(p) {
      BacklogMarks(Enqueued(p, Out(key, msgs[0])), key, msgs[1..]);
    }
  }

  lemma NobodyEvicted(key: SubKey, e: Entry, m: Msg, now: nat)
    requires WellFormed(key, e) && !key.L4Book? && !key.L2Diff?
    ensures Evicted(key, e, m, now) == [] && !key.IsIncremental()
  {
  }

  lemma FrameMarks(w: World, key: SubKey, m: Msg, now: nat, c: nat)
    requires RegistryInv(w) && c in w.peers && Routable(key, m.ord)
    ensures c in Updated(w, key, m, now).peers
    ensures var ev := Update(key, m, now);
            Marked(w.peers[c], Updated(w, key, m, now).peers[c], HungUpBy(w, ev, c), RefusedBy(w, ev, c))
  {
    hide RegistryInv, Updated, Evicted, Ruled, HeldBehind, TotalLen, IsParked, Lookup;
    FrameIsAccountedFor(w, key, m, now, c);
    RegistryWellFormed(w, key);
    if key.L4Book? || key.L2Diff? {
      EvictedIff(key, Lookup(w, key), m, now, c);
    } else {
      NobodyEvicted(key, Lookup(w, key), m, now);
    }
  }

  lemma AnswerMarks(w: World, key: SubKey, d: nat, snapshot: Msg, c: nat)
    requires c in w.peers && snapshot.ord.Snapshot?
    ensures c in Answered(w, key, d, snapshot).peers
    ensures var ev := DeliverSnapshot(key, d, snapshot);
            Marked(w.peers[c], Answered(w, key, d, snapshot).peers[c], HungUpBy(w, ev, c), RefusedBy(w, ev, c))
  {
    hide AnswerEntry, SentBacklog, Backlog;
    if d == c {
      BacklogMarks(w.peers[c], key, AnswerFor(key, Lookup(w, key), c, snapshot));
    }
  }

  lemma FailureMarks(w: World, key: SubKey, d: nat, c: nat)
    requires c in w.peers
    ensures c in GivenUp(w, key, d).peers
    ensures Marked(w.peers[c], GivenUp(w, key, d).peers[c], HungUpBy(w, FailPending(key, d), c), false)
  {
    hide GiveUpEntry;
  }

  lemma LeavingMarks(w: World, ev: Event, c: nat)
    requires (ev.Unsubscribe? || ev.Cleanup?) && c in w.peers
    ensures c in Next(w, ev).peers && Marked(w.peers[c], Next(w, ev).peers[c], false, false)
  {
    hide Detached, DetachedAll, CleanedUp, Lookup, LeaveEntry;
    if Enabled(w, ev) {
      match ev
      case Unsubscribe(d, key) =>
        if key in w.peers[d].keys {
          DetachedView(WithKeys(w, d, w.peers[d].keys - {key}), d, key, key);
        }
      case Cleanup(d, order) =>
        CleanedUpPeers(w, d, order);
    }
  }

  lemma OtherwiseMarks(w: World, ev: Event, c: nat)
    requires c in w.peers && c != w.nextId
    requires !ev.Update? && !ev.DeliverSnapshot? && !ev.FailPending? && !ev.Unsubscribe? && !ev.Cleanup?
    ensures c in Next(w, ev).peers && Marked(w.peers[c], Next(w, ev).peers[c], false, false)
  {
    hide JoinEntry, PinEntry, LoseEntry, Queued, Live, Lookup;
  }

  /** One event: it hangs a client up, and makes it miss a frame, exactly as said. */
  lemma StepMarks(w: World, ev: Event, c: nat)
    requires RegistryInv(w) && c in w.peers
    ensures c in Next(w, ev).peers
    ensures Marked(w.peers[c], Next(w, ev).peers[c], HungUpBy(w, ev, c), RefusedBy(w, ev, c))
  {
    hide Marked, Updated, Answered, GivenUp, KeyInv, IsParked, Ruled, AnswerFor, HeldBehind, TotalLen, Lookup;
    hide Detached, CleanedUp;
    if ev.Update? && Enabled(w, ev) {
      FrameMarks(w, ev.key, ev.msg, ev.now, c);
    } else if ev.DeliverSnapshot? && Enabled(w, ev) {
      AnswerMarks(w, ev.key, ev.client, ev.snapshot, c);
    } else if ev.FailPending? {
      FailureMarks(w, ev.key, ev.client, c);
    } else if ev.Unsubscribe? || ev.Cleanup? {
      LeavingMarks(w, ev, c);
    } else if ev.Update? || ev.DeliverSnapshot? {
      Unmarked(w.peers[c]);
    } else {
      OtherwiseMarks(w, ev, c);
    }
  }

  lemma Unmarked(p: Peer)
    ensures Marked(p, p, false, false)
  {
  }

  // ---------- Runs ----------

  /** How many of its frames the client's queue refused. */
  ghost function Refusals(w: World, evs: seq<Event>, c: nat): nat {
    if evs == [] then 0
    else
      var n := |evs| - 1;
      Refusals(w, evs[..n], c) + if RefusedBy(After(w, evs[..n]), evs[n], c) then 1 else 0
  }

  ghost predicate EverHungUp(w: World, evs: seq<Event>, c: nat) {
    exists i :: 0 <= i < |evs| && HungUpBy(After(w, evs[..i]), evs[i], c)
  }

  lemma EverStep(w: World, evs: seq<Event>, c: nat)
    requires evs != []
    ensures var n := |evs| - 1;
            EverHungUp(w, evs, c) <==> EverHungUp(w, evs[..n], c) || HungUpBy(After(w, evs[..n]), evs[n], c)
  {
    hide After, HungUpBy;
    var n := |evs| - 1;
    forall i | 0 <= i < n ensures evs[..n][..i] == evs[..i] && evs[..n][i] == evs[i] {
    }
    if EverHungUp(w, evs[..n], c) {
      var i :| 0 <= i < n && HungUpBy(After(w, evs[..n][..i]), evs[..n][i], c);
      assert HungUpBy(After(w, evs[..i]), evs[i], c);
    }
  }

  lemma {:induction false} StrangersAreLeftAlone(w: World, evs: seq<Event>, c: nat)
    requires RegistryInv(w) && c !in After(w, evs).peers
    ensures Refusals(w, evs, c) == 0 && !EverHungUp(w, evs, c)
  {
    hide Next, HungUpBy, RefusedBy, RegistryInv;
    if evs != [] {
      var n := |evs| - 1;
      RunKeepsRegistry(w, evs[..n]);
      if c in After(w, evs[..n]).peers {
        StepMarks(After(w, evs[..n]), evs[n], c);
      } else {
        StrangersAreLeftAlone(w, evs[..n], c);
        NotThereYet(After(w, evs[..n]), evs[n], c);
        EverStep(w, evs, c);
      }
    }
  }

  lemma NotThereYet(w: World, ev: Event, c: nat)
    requires c !in w.peers
    ensures !HungUpBy(w, ev, c) && !RefusedBy(w, ev, c)
  {
  }

  /** Over every run of the registry, a client is to be hung up exactly when its queue once refused a frame
      of an incremental channel, more than 64 MiB came to be held for it, or its snapshot could not be had;
      and the frames counted as dropped are those its queue refused. */
  lemma {:induction false} HungUpIff(sources: nat, evs: seq<Event>, c: nat)
    requires c in After(Started(sources), evs).peers
    ensures var (start, p) := (Started(sources), After(Started(sources), evs).peers[c]);
            && (p.kill <==> exists i :: 0 <= i < |evs| && HungUpBy(After(start, evs[..i]), evs[i], c))
            && p.dropped == Refusals(start, evs, c)
  {
    hide Next, HungUpBy, RefusedBy, RegistryInv;
    var start := Started(sources);
    StartsRegistry(sources);
    if evs != [] {
      var n := |evs| - 1;
      var before := After(start, evs[..n]);
      RunKeepsRegistry(start, evs[..n]);
      EverStep(start, evs, c);
      if c in before.peers {
        HungUpIff(sources, evs[..n], c);
        StepMarks(before, evs[n], c);
      } else {
        StrangersAreLeftAlone(start, evs[..n], c);
        NotThereYet(before, evs[n], c);
        Newcomer(before, evs[n], c);
      }
    }
  }

  // ---------- Who is registered ----------

  function Registrations(evs: seq<Event>): nat {
    if evs == [] then 0 else Registrations(evs[..|evs| - 1]) + if evs[|evs| - 1].Register? then 1 else 0
  }

  /** Whether the client registered in the run and was not cleaned up after that. */
  ghost predicate Staying(w: World, evs: seq<Event>, c: nat) {
    if evs == [] then false
    else
      var n := |evs| - 1;
      match evs[n]
      case Register => Staying(w, evs[..n], c) || c == Registrations(evs[..n]) + 1
      case Cleanup(d, _) => Staying(w, evs[..n], c) && !(c == d && Enabled(After(w, evs[..n]), evs[n]))
      case _ => Staying(w, evs[..n], c)
  }

  lemma {:induction false} DetachedAllLive(w: World, c: nat, order: seq<SubKey>)
    ensures DetachedAll(w, c, order).live == w.live
  {
    hide LeaveDrops, Unlisted;
    if order != [] {
      DetachedAllLive(w, c, order[..|order| - 1]);
    }
  }

  lemma UpdateRegistersNobody(w: World, key: SubKey, m: Msg, now: nat)
    ensures var n := Updated(w, key, m, now);
            n.nextId == w.nextId && n.live == w.live && n.peers.Keys == w.peers.Keys
  {
    hide UpdateEntry, FannedOut, Killed, Evicted, Ruled;
    UpdateKeepsHolders(w, key, m, now);
  }

  lemma StepRegisters(w: World, ev: Event)
    ensures var n := Next(w, ev);
            && n.nextId == (if ev.Register? then w.nextId + 1 else w.nextId)
            && n.peers.Keys == (if ev.Register? then w.peers.Keys + {w.nextId} else w.peers.Keys)
            && n.live == (if ev.Register? then w.live + {w.nextId}
                          else if ev.Cleanup? && Enabled(w, ev) then w.live - {ev.client} else w.live)
  {
    hide JoinEntry, PinEntry, LoseEntry, AnswerEntry, GiveUpEntry, AnswerFor, SentBacklog, IsParked, Queued, Live;
    hide Lookup, DetachedAll, LeaveDrops, Unlisted, Updated;
    if Enabled(w, ev) {
      match ev
      case Update(key, m, now) =>
        UpdateRegistersNobody(w, key, m, now);
      case Cleanup(c, order) =>
        CleanedUpPeers(w, c, order);
        DetachedAllLive(WithKeys(w, c, {}).(live := w.live - {c}), c, order);
      case _ =>
    }
  }

  /** Over every run of the registry, clients are numbered from one as they register, and those connected
      are the ones not cleaned up since. */
  lemma {:induction false} ConnectedIff(sources: nat, evs: seq<Event>, c: nat)
    ensures var w := After(Started(sources), evs);
            && w.nextId == Registrations(evs) + 1
            && (c in w.peers <==> 1 <= c <= Registrations(evs))
            && (c in w.live <==> Staying(Started(sources), evs, c))
  {
    hide Next, Enabled;
    if evs != [] {
      var n := |evs| - 1;
      var before := After(Started(sources), evs[..n]);
      ConnectedIff(sources, evs[..n], c);
      StepRegisters(before, evs[n]);
      assert c in Next(before, evs[n]).peers <==> c in Next(before, evs[n]).peers.Keys;
    }
  }
}
