/** The whole registry: every subscription entry, every client, and the upstream connections, with one
function per operation and the invariants all of them keep. */
module Registry {
  import opened Wire
  import opened Arbiter
  import opened Entries
  import opened Streams

  // ---------- Clients ----------

  /** How many messages a client's queue holds. */
  const CLIENT_QUEUE: nat := 65536

  datatype Out = Out(key: SubKey, msg: Msg)

  /** A client as the registry sees it: all the data ever accepted by its queue, how many messages the
      queue holds now, whether its writer still drains it, frames dropped, whether it must be hung up,
      and the keys it holds. */
  datatype Peer = Peer(log: seq<Out>, queued: nat, open: bool, dropped: nat, kill: bool, keys: set<SubKey>)

  const NEW_PEER := Peer([], 0, true, 0, false, {})

  predicate Accepts(p: Peer) {
    p.open && p.queued < CLIENT_QUEUE
  }

  function Enqueued(p: Peer, o: Out): Peer {
    p.(log := p.log + [o], queued := p.queued + 1)
  }

  function SentOrHungUp(p: Peer, o: Out): Peer {
    if Accepts(p) then Enqueued(p, o) else p.(dropped := p.dropped + 1, kill := true)
  }

  function SentOrDropped(p: Peer, o: Out): Peer {
    if Accepts(p) then Enqueued(p, o) else p.(dropped := p.dropped + 1)
  }

  function Sent(p: Peer, o: Out, incremental: bool): Peer {
    if incremental then SentOrHungUp(p, o) else SentOrDropped(p, o)
  }

  /** A backlog is sent until the first failure. */
  function SentBacklog(p: Peer, key: SubKey, msgs: seq<Msg>): Peer
    decreases |msgs|
  {
    if msgs == [] then p
    else if Accepts(p) then SentBacklog(Enqueued(p, Out(key, msgs[0])), key, msgs[1..])
    else SentOrHungUp(p, Out(key, msgs[0]))
  }

  type Peers = map<nat, Peer>

  function FannedOut(peers: Peers, ids: seq<nat>, o: Out, incremental: bool): Peers {
    if ids == [] then peers
    else
      var k := |ids| - 1;
      var before := FannedOut(peers, ids[..k], o, incremental);
      if ids[k] in before then before[ids[k] := Sent(before[ids[k]], o, incremental)] else before
  }

  function Killed(peers: Peers, ids: seq<nat>): Peers {
    map c | c in peers :: if c in ids then peers[c].(kill := true) else peers[c]
  }

  // ---------- Upstream ----------

  datatype Ctrl = Sub(key: SubKey) | Unsub(key: SubKey)

  /** Reconnecting takes two steps with other work possibly between them: what was queued during the
      outage is dropped, with `live` the keys live at that moment, then everything live is subscribed to
      afresh. `clean` says the same keys were live at both. */
  datatype Phase = Down | Emptied(live: set<SubKey>) | Up(clean: bool)

  /** A source's connection: the control frames queued for it, and what its node is subscribed to. */
  datatype Link = Link(phase: Phase, queue: seq<Ctrl>, node: set<SubKey>)

  datatype World = World(subs: map<SubKey, Entry>, peers: Peers, live: set<nat>, nextId: nat,
                         ledger: seq<Ctrl>, links: seq<Link>)

  function LookupIn(subs: map<SubKey, Entry>, key: SubKey): Entry {
    if key in subs then subs[key] else EMPTY
  }

  function Lookup(w: World, key: SubKey): Entry {
    LookupIn(w.subs, key)
  }

  /** The keys live upstream, which is what a reconnecting source is subscribed to afresh. */
  function Live(w: World): set<SubKey> {
    set k | k in w.subs && w.subs[k].upstream
  }

  function Queued(links: seq<Link>, c: Ctrl): seq<Link> {
    seq(|links|, i requires 0 <= i < |links| => links[i].(queue := links[i].queue + [c]))
  }

  function Broadcast(w: World, c: Ctrl): World {
    w.(ledger := w.ledger + [c], links := Queued(w.links, c))
  }

  // ---------- Operations ----------

  function Registered(w: World): World {
    w.(peers := w.peers[w.nextId := NEW_PEER], live := w.live + {w.nextId}, nextId := w.nextId + 1)
  }

  datatype Outcome = Fresh | JoinedRunning | Duplicate

  function SubscribeOutcome(w: World, c: nat, key: SubKey): Outcome
    requires c in w.peers
  {
    if key in w.peers[c].keys then Duplicate
    else if Lookup(w, key).upstream then JoinedRunning
    else Fresh
  }

  function WithKeys(w: World, c: nat, keys: set<SubKey>): World
    requires c in w.peers
  {
    w.(peers := w.peers[c := w.peers[c].(keys := keys)])
  }

  function Subscribed(w: World, c: nat, key: SubKey): World
    requires c in w.peers
  {
    if key in w.peers[c].keys then w
    else
      var e := Lookup(w, key);
      var held := WithKeys(w, c, w.peers[c].keys + {key});
      var joined := held.(subs := w.subs[key := JoinEntry(key, e, c)]);
      if e.upstream then joined else Broadcast(joined, Sub(key))
  }

  function Pinned(w: World, key: SubKey): World {
    var e := Lookup(w, key);
    var pinned := w.(subs := w.subs[key := PinEntry(e)]);
    if e.upstream then pinned else Broadcast(pinned, Sub(key))
  }

  function Detached(w: World, c: nat, key: SubKey): World {
    if key !in w.subs then w
    else
      var e := w.subs[key];
      if LeaveDrops(e, c) then Broadcast(w.(subs := w.subs - {key}), Unsub(key))
      else w.(subs := w.subs[key := Unlisted(e, c)])
  }

  function Unsubscribed(w: World, c: nat, key: SubKey): World
    requires c in w.peers
  {
    if key in w.peers[c].keys then Detached(WithKeys(w, c, w.peers[c].keys - {key}), c, key) else w
  }

  function DetachedAll(w: World, c: nat, order: seq<SubKey>): World {
    if order == [] then w
    else Detached(DetachedAll(w, c, order[..|order| - 1]), c, order[|order| - 1])
  }

  /** A client is removed: its keys are taken, then it is detached from each, in whatever order they
      come out. */
  function CleanedUp(w: World, c: nat, order: seq<SubKey>): World
    requires c in w.peers
  {
    DetachedAll(WithKeys(w, c, {}).(live := w.live - {c}), c, order)
  }

  function Updated(w: World, key: SubKey, m: Msg, now: nat): World {
    var e := Lookup(w, key);
    var killed := Killed(w.peers, Evicted(key, e, m, now));
    w.(subs := w.subs[key := UpdateEntry(key, e, m, now)],
       peers := if Ruled(key, e, m, now).deliver
                then FannedOut(killed, e.subscribers, Out(key, m), key.IsIncremental())
                else killed)
  }

  function Answered(w: World, key: SubKey, c: nat, snapshot: Msg): World {
    if key in w.subs && IsParked(w.subs[key].pending, c) && c in w.peers then
      var e := w.subs[key];
      w.(subs := w.subs[key := AnswerEntry(key, e, c, snapshot)],
         peers := w.peers[c := SentBacklog(w.peers[c], key, AnswerFor(key, e, c, snapshot))])
    else w
  }

  function SourceLost(w: World, s: nat): World {
    w.(subs := map k | k in w.subs :: LoseEntry(k, w.subs[k], s))
  }

  function GivenUp(w: World, key: SubKey, c: nat): World {
    if key in w.subs && IsParked(w.subs[key].pending, c) && c in w.peers then
      w.(subs := w.subs[key := GiveUpEntry(w.subs[key], c)],
         peers := w.peers[c := w.peers[c].(kill := true)])
    else w
  }

  function Applied(node: set<SubKey>, c: Ctrl): set<SubKey> {
    match c
    case Sub(k) => node + {k}
    case Unsub(k) => node - {k}
  }

  function Drained(w: World, i: nat): World
    requires i < |w.links|
  {
    w.(links := w.links[i := Link(Emptied(Live(w)), [], {})])
  }

  function Resubscribed(w: World, i: nat): World
    requires i < |w.links|
  {
    var l := w.links[i];
    if l.phase.Emptied? then
      w.(links := w.links[i := l.(phase := Up(Live(w) == l.phase.live), node := Live(w))])
    else w
  }

  function Pumped(w: World, i: nat): World
    requires i < |w.links|
  {
    var l := w.links[i];
    if l.phase.Up? && l.queue != [] then
      w.(links := w.links[i := l.(queue := l.queue[1..], node := Applied(l.node, l.queue[0]))])
    else w
  }

  // ---------- Runs ----------

  datatype Event =
    | Register
    | Subscribe(client: nat, key: SubKey)
    | Unsubscribe(client: nat, key: SubKey)
    | Cleanup(client: nat, order: seq<SubKey>)
    | PinKey(key: SubKey)
    | Update(key: SubKey, msg: Msg, now: nat)
    | DeliverSnapshot(key: SubKey, client: nat, snapshot: Msg)
    | LoseSource(source: nat)
    | FailPending(key: SubKey, client: nat)
    | Drain(client: nat, n: nat)          // the writer takes messages off the queue
    | CloseQueue(client: nat)             // the writer is gone
    | Chatter(client: nat)                // an acknowledgement or a pong takes a slot
    | Empty(link: nat)                    // a new connection drops what queued up for the old one
    | Resubscribe(link: nat)              // and subscribes to everything live
    | Disconnect(link: nat)
    | Pump(link: nat)                     // the connection passes one control frame on

  function WithPeer(w: World, c: nat, p: Peer): World {
    w.(peers := w.peers[c := p])
  }

  /** What the rest of the program guarantees: handles are of registered clients, frames are routed,
      and a cleanup goes through exactly the keys the client holds. */
  predicate Enabled(w: World, ev: Event) {
    match ev
    case Register => true
    case Subscribe(c, _) => c in w.peers
    case Unsubscribe(c, _) => c in w.peers
    case Cleanup(c, order) =>
      c in w.peers && multiset(order) == multiset(w.peers[c].keys)
    case PinKey(_) => true
    case Update(key, m, _) => Routable(key, m.ord)
    case DeliverSnapshot(_, _, snapshot) => snapshot.ord.Snapshot?
    case LoseSource(_) => true
    case FailPending(_, _) => true
    case Drain(c, n) => c in w.peers
    case CloseQueue(c) => c in w.peers
    case Chatter(c) => c in w.peers
    case Empty(i) => i < |w.links|
    case Resubscribe(i) => i < |w.links|
    case Disconnect(i) => i < |w.links|
    case Pump(i) => i < |w.links|
  }

  function Do(w: World, ev: Event): World
    requires Enabled(w, ev)
  {
    match ev
    case Register => Registered(w)
    case Subscribe(c, key) => Subscribed(w, c, key)
    case Unsubscribe(c, key) => Unsubscribed(w, c, key)
    case Cleanup(c, order) => CleanedUp(w, c, order)
    case PinKey(key) => Pinned(w, key)
    case Update(key, m, now) => Updated(w, key, m, now)
    case DeliverSnapshot(key, c, snapshot) => Answered(w, key, c, snapshot)
    case LoseSource(s) => SourceLost(w, s)
    case FailPending(key, c) => GivenUp(w, key, c)
    case Drain(c, n) =>
      var p := w.peers[c];
      WithPeer(w, c, p.(queued := if n <= p.queued then p.queued - n else 0))
    case CloseQueue(c) => WithPeer(w, c, w.peers[c].(open := false))
    case Chatter(c) =>
      var p := w.peers[c];
      WithPeer(w, c, if Accepts(p) then p.(queued := p.queued + 1) else p)
    case Empty(i) => Drained(w, i)
    case Resubscribe(i) => Resubscribed(w, i)
    case Disconnect(i) => w.(links := w.links[i := w.links[i].(phase := Down)])
    case Pump(i) => Pumped(w, i)
  }

  /** An event the rest of the program cannot produce does not happen. */
  function Next(w: World, ev: Event): World {
    if Enabled(w, ev) then Do(w, ev) else w
  }

  function After(w: World, evs: seq<Event>): World {
    if evs == [] then w else Next(After(w, evs[..|evs| - 1]), evs[|evs| - 1])
  }

  function Started(sources: nat): World {
    World(map[], map[], {}, 1, [], seq(sources, _ => Link(Down, [], {})))
  }
}
