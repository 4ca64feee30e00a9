/** The objects the registry keeps: clients, sources and subscription entries, updated in place. Each has
a value, and each method says what it does to that value. */
module Entities {
  import opened Wire
  import opened Arbiter
  import opened Entries
  import opened Registry
  import opened Stats

  class Client {
    const id: nat
    var queued: nat
    var open: bool
    var dropped: nat
    var kill: bool
    var subscriptions: set<SubKey>
    ghost var log: seq<Out>

    ghost function View(): Peer
      reads this
    {
      Peer(log, queued, open, dropped, kill, subscriptions)
    }

    constructor (id: nat)
      ensures this.id == id && View() == NEW_PEER
    {
      this.id := id;
      queued, open, dropped, kill, subscriptions, log := 0, true, 0, false, {}, [];
    }

    method TrySend(o: Out) returns (ok: bool)
      modifies this`queued, this`log
      ensures ok == Accepts(old(View()))
      ensures View() == if ok then Enqueued(old(View()), o) else old(View())
    {
      ok := open && queued < CLIENT_QUEUE;
      if ok {
        queued := queued + 1;
        log := log + [o];
      }
    }

    method SendOrHangUp(o: Out) returns (ok: bool)
      modifies this
      ensures ok == Accepts(old(View()))
      ensures View() == SentOrHungUp(old(View()), o)
    {
      ok := TrySend(o);
      if !ok {
        dropped := dropped + 1;
        kill := true;
      }
    }

    /** The writer takes the oldest message off the queue. */
    method TakeOne()
      requires queued > 0
      modifies this`queued
      ensures View() == old(View()).(queued := old(queued) - 1)
    {
      queued := queued - 1;
    }

    /** An acknowledgement or a pong goes out if there is room, and is not missed otherwise. */
    method Reply()
      modifies this`queued
      ensures View() == if Accepts(old(View())) then old(View()).(queued := old(queued) + 1) else old(View())
    {
      if open && queued < CLIENT_QUEUE {
        queued := queued + 1;
      }
    }

    /** Sends a backlog, up to the first failure. */
    method SendBacklog(key: SubKey, backlog: seq<Msg>)
      modifies this
      ensures View() == SentBacklog(old(View()), key, backlog)
    {
      assert backlog[0..] == backlog;
      for i := 0 to |backlog|
        invariant SentBacklog(View(), key, backlog[i..]) == SentBacklog(old(View()), key, backlog)
      {
        assert backlog[i..][0] == backlog[i] && backlog[i..][1..] == backlog[i + 1..];
        var ok := SendOrHangUp(Out(key, backlog[i]));
        if !ok {
          return;
        }
      }
    }
  }

  class Source {
    const id: nat
    const stats: SourceStats
    var queue: seq<Ctrl>
    ghost var phase: Phase
    ghost var node: set<SubKey>

    ghost function View(): Link
      reads this
    {
      Link(phase, queue, node)
    }

    constructor (id: nat)
      ensures this.id == id && View() == Link(Down, [], {})
      ensures fresh(stats) && fresh(stats.hist) && stats.Valid() && stats.View() == NEW_TALLY
    {
      this.id := id;
      queue, phase, node := [], Down, {};
      stats := new SourceStats();
    }

    method Push(c: Ctrl)
      modifies this`queue
      ensures View() == old(View()).(queue := old(queue) + [c])
    {
      queue := queue + [c];
    }

    /** A new connection drops whatever queued up while the source was down. */
    method DropQueued(ghost live: set<SubKey>)
      modifies this
      ensures View() == Link(Emptied(live), [], {})
    {
      while queue != []
        decreases |queue|
      {
        queue := queue[1..];
      }
      phase, node := Emptied(live), {};
    }

    /** Sends the node behind a new connection its subscriptions. */
    method SubscribeTo(requests: seq<SubKey>)
      requires phase.Emptied?
      modifies this
      ensures var live := set k | k in requests;
              View() == Link(Up(live == old(phase.live)), old(queue), live)
    {
      node := {};
      for n := 0 to |requests|
        invariant View() == Link(old(phase), old(queue), set k | k in requests[..n])
      {
        node := node + {requests[n]};
      }
      assert requests[..|requests|] == requests;
      phase := Up(node == phase.live);
    }

    /** Passes one queued control frame on to the node. */
    method Forward()
      requires phase.Up? && queue != []
      modifies this
      ensures View() == old(View()).(queue := old(queue)[1..], node := Applied(old(node), old(queue)[0]))
    {
      node := Applied(node, queue[0]);
      queue := queue[1..];
    }
  }

  /** A client waiting for its snapshot. */
  datatype Waiting = Waiting(client: Client, held: seq<Msg>, bytes: nat) {
    function View(): Pending {
      Pending(client.id, held, bytes)
    }
  }

  function Ids(clients: seq<Client>): (r: seq<nat>)
    ensures |r| == |clients|
  {
    seq(|clients|, i requires 0 <= i < |clients| => clients[i].id)
  }

  function Views(pending: seq<Waiting>): (r: seq<Pending>)
    ensures |r| == |pending|
  {
    seq(|pending|, i requires 0 <= i < |pending| => pending[i].View())
  }

  class SubEntry {
    const key: SubKey
    var last: nat
    var lastSeenAt: nat
    var upstreamSubscribed: bool
    var subscribers: seq<Client>
    var pinned: bool
    var pending: seq<Waiting>
    var blockLeader: Option<nat>
    var blockSampled: set<nat>
    var blockSent: nat
    var blockSeen: seq<nat>
    var needsSnapshot: set<nat>

    ghost function Order(): Arb
      reads this
    {
      Arb(last, lastSeenAt, blockLeader, blockSampled, blockSent, blockSeen, needsSnapshot)
    }

    ghost function View(): Entry
      reads this
    {
      Entry(Order(), upstreamSubscribed, pinned, Ids(subscribers), Views(pending))
    }

    constructor (key: SubKey)
      ensures this.key == key && View() == EMPTY
      ensures subscribers == [] && pending == []
    {
      this.key := key;
      last, lastSeenAt, upstreamSubscribed, subscribers, pinned, pending := 0, 0, false, [], false, [];
      blockLeader, blockSampled, blockSent, blockSeen, needsSnapshot := None, {}, 0, [], {};
    }

    // ---------- Arbitration ----------

    /** One more message of the current block from `id`. */
    method BumpBlockCount(id: nat) returns (total: nat)
      modifies this`blockSeen
      ensures blockSeen == Bumped(old(blockSeen), id) && total == blockSeen[id]
    {
      while |blockSeen| <= id
        invariant |old(blockSeen)| <= |blockSeen|
        invariant |old(blockSeen)| < |blockSeen| ==> |blockSeen| <= id + 1
        invariant blockSeen == old(blockSeen) + seq(|blockSeen| - |old(blockSeen)|, _ => 0)
        decreases id + 1 - |blockSeen|
      {
        blockSeen := blockSeen + [0];
      }
      blockSeen := blockSeen[id := (blockSeen[id] + 1) % U32];
      total := blockSeen[id];
    }

    /** Starts a new block, with `id` having supplied its first message. */
    method OpenNewBlock(id: nat)
      modifies this`blockSeen, this`blockSent
      ensures Order() == OpenBlock(old(Order()), id)
    {
      for i := 0 to |blockSeen|
        invariant |blockSeen| == |old(blockSeen)|
        invariant forall j :: 0 <= j < i ==> blockSeen[j] == 0
      {
        blockSeen := blockSeen[i := 0];
      }
      assert blockSeen == seq(|old(blockSeen)|, _ => 0);
      blockSent := 1;
      var total := BumpBlockCount(id);
    }

    method Open(src: nat, h: nat, now: nat)
      modifies this`last, this`lastSeenAt, this`blockLeader, this`blockSampled, this`blockSent, this`blockSeen
      ensures Order() == Opened(old(Order()), src, h, now)
    {
      last, lastSeenAt := h, now;
      blockLeader := Some(src);
      blockSampled := {SourceBit(src)};
      OpenNewBlock(src);
    }

    method ArbitrateSnapshot(src: nat, h: nat, now: nat) returns (deliver: bool)
      modifies this`last, this`lastSeenAt, this`blockLeader, this`blockSampled, this`blockSent, this`blockSeen,
               this`needsSnapshot
      ensures RuleSnapshot(key.SingleSourced(), old(Order()), src, h, now)
           == Ruling(Order(), deliver, deliver, None, !deliver)
    {
      needsSnapshot := needsSnapshot - {SourceBit(src)};
      var ours := !key.SingleSourced() || blockLeader.None? || blockLeader.value == src;
      deliver := ours && h > last;
      if deliver {
        Open(src, h, now);
      }
    }

    method ArbitrateBlock(src: nat, h: nat, now: nat)
      returns (deliver: bool, win: bool, late: Option<nat>, stale: bool)
      modifies this`last, this`lastSeenAt, this`blockLeader, this`blockSampled, this`blockSent, this`blockSeen
      ensures RuleBlock(old(Order()), src, h, now) == Ruling(Order(), deliver, win, late, stale)
    {
      deliver, win, late, stale := false, false, None, false;
      if SourceBit(src) in needsSnapshot {
        stale := true;
      } else if h > last {
        Open(src, h, now);
        deliver, win := true, true;
      } else if h == last {
        var seen := BumpBlockCount(src);
        if seen > blockSent {
          blockSent := seen;
          blockLeader := Some(src);
          deliver := true;
        } else if SourceBit(src) !in blockSampled {
          blockSampled := blockSampled + {SourceBit(src)};
          late := Some(if now >= lastSeenAt then now - lastSeenAt else 0);
        }
      } else {
        stale := true;
      }
    }

    method ArbitrateSticky(src: nat, v: nat, now: nat)
      returns (deliver: bool, win: bool, late: Option<nat>, stale: bool)
      modifies this`last, this`lastSeenAt, this`blockLeader
      ensures RuleSticky(old(Order()), src, v, now) == Ruling(Order(), deliver, win, late, stale)
    {
      deliver, win, late, stale := false, false, None, false;
      if blockLeader.None? {
        last, lastSeenAt, blockLeader := v, now, Some(src);
        deliver, win := true, true;
      } else if blockLeader.value == src {
        if v >= last {
          win := v > last;
          last, lastSeenAt := v, now;
          deliver := true;
        } else {
          stale := true;
        }
      } else {
        late := Some(if now >= lastSeenAt then now - lastSeenAt else 0);
      }
    }

    /** Applies the arbitration rule to one frame. */
    method Arbitrate(src: nat, ord: Seq, now: nat)
      returns (deliver: bool, win: bool, late: Option<nat>, stale: bool)
      modifies this`last, this`lastSeenAt, this`blockLeader, this`blockSampled, this`blockSent, this`blockSeen,
               this`needsSnapshot
      ensures Arbiter.Arbitrate(key, old(Order()), src, ord, now) == Ruling(Order(), deliver, win, late, stale)
    {
      deliver, win, late, stale := false, false, None, false;
      match ord
      case Point(v) =>
        if v > last {
          last, lastSeenAt := v, now;
          deliver, win := true, true;
        } else if v == last {
          late := Some(if now >= lastSeenAt then now - lastSeenAt else 0);
        } else {
          stale := true;
        }
      case Lead(v) =>
        if v > last {
          last, lastSeenAt, blockLeader := v, now, Some(src);
          deliver, win := true, true;
        } else if v == last {
          if blockLeader == Some(src) {
            deliver := true;
          } else {
            late := Some(if now >= lastSeenAt then now - lastSeenAt else 0);
          }
        } else {
          stale := true;
        }
      case Sticky(v) =>
        deliver, win, late, stale := ArbitrateSticky(src, v, now);
      case Snapshot(h) =>
        deliver := ArbitrateSnapshot(src, h, now);
        win, stale := deliver, !deliver;
      case Block(h) =>
        deliver, win, late, stale := ArbitrateBlock(src, h, now);
    }

    // ---------- Waiting clients ----------

    method HoldForAll(m: Msg)
      modifies this`pending
      ensures Views(pending) == HoldAll(old(Views(pending)), m)
      ensures |pending| == |old(pending)|
      ensures forall i :: 0 <= i < |pending| ==> pending[i].client == old(pending)[i].client
    {
      for i := 0 to |pending|
        invariant |pending| == |old(pending)|
        invariant forall j :: 0 <= j < i ==>
          pending[j] == old(pending)[j].(held := old(pending)[j].held + [m],
                                         bytes := old(pending)[j].bytes + m.payload.len)
        invariant forall j :: i <= j < |pending| ==> pending[j] == old(pending)[j]
      {
        pending := pending[i := pending[i].(held := pending[i].held + [m], bytes := pending[i].bytes + m.payload.len)];
      }
    }

    static lemma NextView(p: seq<Waiting>, i: nat)
      requires i < |p|
      ensures p[..i + 1] == p[..i] + [p[i]]
      ensures Views(p[..i + 1]) == Views(p[..i]) + [p[i].View()]
      ensures Views(p[..i + 1])[..i] == Views(p[..i])
    {
    }

    static lemma NothingKept()
      ensures Kept([]) == [] && Overflowed([]) == []
    {
    }

    static lemma NextKept(p: seq<Waiting>, i: nat)
      requires i < |p|
      ensures p[..i + 1] == p[..i] + [p[i]]
      ensures var outgrown := p[i].bytes > PENDING_MAX_BYTES;
              && Kept(Views(p[..i + 1])) == Kept(Views(p[..i])) + (if outgrown then [] else [p[i].View()])
              && Overflowed(Views(p[..i + 1]))
                 == Overflowed(Views(p[..i])) + (if outgrown then [p[i].client.id] else [])
    {
      NextView(p, i);
      hide Views;
    }

    /** Takes the clients whose backlog has outgrown the cap off the waiting list. */
    method EvictOverflowed() returns (overflowed: seq<Client>)
      modifies this`pending
      ensures Views(pending) == Kept(old(Views(pending)))
      ensures Ids(overflowed) == Overflowed(old(Views(pending)))
      ensures forall p <- pending :: p in old(pending)
      ensures forall c <- overflowed :: exists p :: p in old(pending) && p.client == c
    {
      hide Kept, Overflowed;
      overflowed := [];
      var kept: seq<Waiting> := [];
      NothingKept();
      for i := 0 to |pending|
        invariant pending == old(pending)
        invariant Views(kept) == Kept(Views(pending[..i]))
        invariant Ids(overflowed) == Overflowed(Views(pending[..i]))
        invariant forall p <- kept :: p in pending
        invariant forall c <- overflowed :: exists p :: p in pending && p.client == c
      {
        NextKept(pending, i);
        if pending[i].bytes > PENDING_MAX_BYTES {
          overflowed := overflowed + [pending[i].client];
        } else {
          kept := kept + [pending[i]];
        }
      }
      assert pending[..|pending|] == pending;
      pending := kept;
    }

    method PositionOf(client: nat) returns (i: nat)
      ensures i == Position(Views(pending), client)
      ensures i < |pending| ==> pending[i].client.id == client
    {
      i := 0;
      assert Views(pending)[0..] == Views(pending);
      while i < |pending| && pending[i].client.id != client
        invariant i <= |pending|
        invariant Position(Views(pending), client) == i + Position(Views(pending)[i..], client)
      {
        assert Views(pending)[i..][1..] == Views(pending)[i + 1..];
        i := i + 1;
      }
    }

    method ContainsSubscriber(client: nat) returns (found: bool)
      ensures found == (client in Ids(subscribers))
    {
      found := false;
      for i := 0 to |subscribers|
        invariant client !in Ids(subscribers)[..i]
      {
        if subscribers[i].id == client {
          assert Ids(subscribers)[i] == client;
          return true;
        }
        assert Ids(subscribers)[..i + 1] == Ids(subscribers)[..i] + [subscribers[i].id];
      }
      assert Ids(subscribers)[..|subscribers|] == Ids(subscribers);
    }

    // ---------- Joining and leaving ----------

    method Join(client: Client) returns (needUpstream: bool)
      modifies this`subscribers, this`pending, this`upstreamSubscribed
      ensures View() == JoinEntry(key, old(View()), client.id)
      ensures needUpstream == !old(upstreamSubscribed)
      ensures forall c <- subscribers :: c in old(subscribers) || c == client
      ensures forall p <- pending :: p in old(pending) || p.client == client
    {
      needUpstream := !upstreamSubscribed;
      if !needUpstream && key.IsIncremental() {
        var i := PositionOf(client.id);
        if i == |pending| {
          pending := pending + [Waiting(client, [], 0)];
          assert Views(pending) == Views(old(pending)) + [Pending(client.id, [], 0)];
        }
      } else {
        var found := ContainsSubscriber(client.id);
        if !found {
          subscribers := subscribers + [client];
          assert Ids(subscribers) == Ids(old(subscribers)) + [client.id];
        }
      }
      if needUpstream {
        upstreamSubscribed := true;
      }
    }

    method Retain(client: nat)
      modifies this`subscribers, this`pending
      ensures View() == Unlisted(old(View()), client)
      ensures forall c <- subscribers :: c in old(subscribers)
      ensures forall p <- pending :: p in old(pending)
    {
      RetainSubscribers(client);
      RetainPending(client);
    }

    method RetainSubscribers(client: nat)
      modifies this`subscribers
      ensures Ids(subscribers) == Without(Ids(old(subscribers)), client)
      ensures forall c <- subscribers :: c in old(subscribers)
    {
      var kept: seq<Client> := [];
      for i := 0 to |subscribers|
        invariant Ids(kept) == Without(Ids(subscribers[..i]), client)
        invariant forall c <- kept :: c in subscribers[..i]
      {
        assert subscribers[..i + 1] == subscribers[..i] + [subscribers[i]];
        assert Ids(subscribers[..i + 1])[..i] == Ids(subscribers[..i]);
        if subscribers[i].id != client {
          kept := kept + [subscribers[i]];
        }
      }
      assert subscribers[..|subscribers|] == subscribers;
      subscribers := kept;
    }

    method RetainPending(client: nat)
      modifies this`pending
      ensures Views(pending) == WithoutPending(Views(old(pending)), client)
      ensures forall p <- pending :: p in old(pending)
    {
      var kept: seq<Waiting> := [];
      for i := 0 to |pending|
        invariant Views(kept) == WithoutPending(Views(pending[..i]), client)
        invariant forall p <- kept :: p in pending[..i]
      {
        assert pending[..i + 1] == pending[..i] + [pending[i]];
        assert Views(pending[..i + 1])[..i] == Views(pending[..i]);
        if pending[i].client.id != client {
          kept := kept + [pending[i]];
        }
      }
      assert pending[..|pending|] == pending;
      pending := kept;
    }

    /** Detaches the client; says whether the upstream subscription goes with it. */
    method Detach(client: nat) returns (dropUpstream: bool)
      modifies this`subscribers, this`pending, this`upstreamSubscribed
      ensures dropUpstream == LeaveDrops(old(View()), client)
      ensures View() == Unlisted(old(View()), client).(upstream := old(upstreamSubscribed) && !dropUpstream)
      ensures forall c <- subscribers :: c in old(subscribers)
      ensures forall p <- pending :: p in old(pending)
    {
      Retain(client);
      dropUpstream := false;
      assert subscribers == [] <==> Ids(subscribers) == [];
      assert pending == [] <==> Views(pending) == [];
      if subscribers == [] && pending == [] && upstreamSubscribed && !pinned {
        upstreamSubscribed := false;
        dropUpstream := true;
      }
    }

    // ---------- Snapshots and losses ----------

    /** Takes one place off the waiting list. */
    method TakeOff(i: nat) returns (w: Waiting)
      requires i < |pending|
      modifies this`pending
      ensures w == old(pending)[i] && Views(pending) == Removed(old(Views(pending)), i)
      ensures forall p <- pending :: p in old(pending)
    {
      w := pending[i];
      pending := pending[..i] + pending[i + 1..];
    }

    /** The held frames a snapshot does not already contain. */
    static method Unheld(held: seq<Msg>, height: nat, single: bool, source: nat) returns (r: seq<Msg>)
      ensures r == Backlog(held, height, single, source)
    {
      r := [];
      for i := 0 to |held|
        invariant r == Backlog(held[..i], height, single, source)
      {
        assert held[..i + 1][..i] == held[..i];
        var m := held[i];
        if m.ord.stamp > height && (!single || m.src == source) {
          r := r + [m];
        }
      }
      assert held[..|held|] == held;
    }

    method Park(orphaned: seq<Client>)
      modifies this`pending
      ensures Views(pending) == Views(old(pending)) + Parking(Ids(orphaned))
      ensures forall p <- pending :: p in old(pending) || p.client in orphaned
    {
      for i := 0 to |orphaned|
        invariant Views(pending) == Views(old(pending)) + Parking(Ids(orphaned[..i]))
        invariant forall p <- pending :: p in old(pending) || p.client in orphaned
      {
        assert Ids(orphaned[..i + 1]) == Ids(orphaned[..i]) + [orphaned[i].id];
        assert Parking(Ids(orphaned[..i + 1])) == Parking(Ids(orphaned[..i])) + [Pending(orphaned[i].id, [], 0)];
        var before := pending;
        pending := pending + [Waiting(orphaned[i], [], 0)];
        assert Views(pending) == Views(before) + [Pending(orphaned[i].id, [], 0)];
      }
      assert orphaned[..|orphaned|] == orphaned;
    }

    /** Frees the entry of a lost source. The clients to rebuild move behind those already waiting. */
    method Lose(source: nat) returns (orphaned: seq<Client>)
      modifies this
      ensures View() == LoseEntry(key, old(View()), source)
      ensures Ids(orphaned) == Orphaned(key, old(View()), source)
      ensures forall c <- orphaned :: c in old(subscribers)
      ensures forall c <- subscribers :: c in old(subscribers)
      ensures forall p <- pending :: p in old(pending) || p.client in old(subscribers)
    {
      orphaned := [];
      if blockLeader != Some(source) {
        return;
      }
      if !key.IsIncremental() {
        if key.SingleSourced() {
          blockLeader, blockSampled, last := None, {}, 0;
        }
        return;
      }
      blockLeader, blockSampled := None, {};
      needsSnapshot := needsSnapshot + {SourceBit(source)};
      last := 0;
      orphaned, subscribers := subscribers, [];
      Park(orphaned);
    }
  }
}
