/** One subscription entry: who listens to it, who waits for a snapshot, and what each step does.

Clients are named by their ids here. A step of an entry is a `KeyEvent`; a run is a sequence of
them, from a client joining to a source going away, in any interleaving. */
module Entries {
  import opened Wire
  import opened Arbiter

  /** Cap on what is held back for one client awaiting its snapshot. */
  const PENDING_MAX_BYTES: nat := 64 * 1024 * 1024

  /** A client waiting for its own snapshot, with the frames piled up behind it. */
  datatype Pending = Pending(client: nat, held: seq<Msg>, bytes: nat)

  datatype Entry = Entry(arb: Arb, upstream: bool, pinned: bool, subscribers: seq<nat>, pending: seq<Pending>)

  const EMPTY := Entry(FRESH, false, false, [], [])

  // ---------- Lists ----------

  function Without(s: seq<nat>, c: nat): seq<nat> {
    if s == [] then []
    else
      var k := |s| - 1;
      Without(s[..k], c) + if s[k] == c then [] else [s[k]]
  }

  function WithoutPending(p: seq<Pending>, c: nat): seq<Pending> {
    if p == [] then []
    else
      var k := |p| - 1;
      WithoutPending(p[..k], c) + if p[k].client == c then [] else [p[k]]
  }

  /** Index of the client's place in the waiting list, or the length of the list. */
  function Position(p: seq<Pending>, c: nat): (r: nat)
    ensures r <= |p|
    ensures r < |p| ==> p[r].client == c
    ensures forall i :: 0 <= i < r ==> p[i].client != c
  {
    if p == [] || p[0].client == c then 0 else 1 + Position(p[1..], c)
  }

  predicate IsParked(p: seq<Pending>, c: nat) {
    Position(p, c) < |p|
  }

  function Removed(p: seq<Pending>, i: nat): seq<Pending>
    requires i < |p|
  {
    p[..i] + p[i + 1..]
  }

  function HoldAll(p: seq<Pending>, m: Msg): seq<Pending> {
    seq(|p|, i requires 0 <= i < |p| =>
      p[i].(held := p[i].held + [m], bytes := p[i].bytes + m.payload.len))
  }

  function Kept(p: seq<Pending>): seq<Pending> {
    if p == [] then []
    else
      var k := |p| - 1;
      Kept(p[..k]) + if p[k].bytes > PENDING_MAX_BYTES then [] else [p[k]]
  }

  function Overflowed(p: seq<Pending>): seq<nat> {
    if p == [] then []
    else
      var k := |p| - 1;
      Overflowed(p[..k]) + if p[k].bytes > PENDING_MAX_BYTES then [p[k].client] else []
  }

  function Parking(clients: seq<nat>): seq<Pending> {
    seq(|clients|, i requires 0 <= i < |clients| => Pending(clients[i], [], 0))
  }

  /** The held frames a snapshot taken at `height` does not already contain; on a single-sourced
      channel only those of the snapshot's own source. */
  function Backlog(held: seq<Msg>, height: nat, single: bool, source: nat): seq<Msg> {
    if held == [] then []
    else
      var k := |held| - 1;
      var m := held[k];
      Backlog(held[..k], height, single, source)
      + if m.ord.stamp > height && (!single || m.src == source) then [m] else []
  }

  // ---------- Steps ----------

  datatype KeyEvent =
    | Join(client: nat)
    | Leave(client: nat)
    | Pin
    | Arrive(msg: Msg, now: nat)
    | Answer(client: nat, snapshot: Msg)
    | Lost(source: nat)
    | GiveUp(client: nat)

  predicate Holds(ord: Seq) {
    ord.Block? || ord.Snapshot? || ord.Sticky?
  }

  function JoinEntry(key: SubKey, e: Entry, c: nat): Entry {
    var listed :=
      if e.upstream && key.IsIncremental() then
        if IsParked(e.pending, c) then e else e.(pending := e.pending + [Pending(c, [], 0)])
      else
        if c in e.subscribers then e else e.(subscribers := e.subscribers + [c]);
    listed.(upstream := true)
  }

  /** The entry without the client, before the upstream subscription is reconsidered. */
  function Unlisted(e: Entry, c: nat): Entry {
    e.(subscribers := Without(e.subscribers, c), pending := WithoutPending(e.pending, c))
  }

  /** Whether the client's leaving drops the upstream subscription, and the entry with it. */
  predicate LeaveDrops(e: Entry, c: nat) {
    var u := Unlisted(e, c);
    u.subscribers == [] && u.pending == [] && e.upstream && !e.pinned
  }

  function LeaveEntry(e: Entry, c: nat): Entry {
    if LeaveDrops(e, c) then EMPTY else Unlisted(e, c)
  }

  function PinEntry(e: Entry): Entry {
    e.(pinned := true, upstream := true)
  }

  function Ruled(key: SubKey, e: Entry, m: Msg, now: nat): Ruling {
    Arbitrate(key, e.arb, m.src, m.ord, now)
  }

  /** The waiting list once the frame has been held for everyone on it, before eviction. */
  function HeldFor(key: SubKey, e: Entry, m: Msg, now: nat): seq<Pending> {
    if Ruled(key, e, m, now).deliver && Holds(m.ord) then HoldAll(e.pending, m) else e.pending
  }

  /** Eviction runs only together with holding. */
  function UpdateEntry(key: SubKey, e: Entry, m: Msg, now: nat): Entry {
    var r := Ruled(key, e, m, now);
    e.(arb := r.arb,
       pending := if r.deliver && Holds(m.ord) then Kept(HeldFor(key, e, m, now)) else e.pending)
  }

  function Evicted(key: SubKey, e: Entry, m: Msg, now: nat): seq<nat> {
    if Ruled(key, e, m, now).deliver && Holds(m.ord) then Overflowed(HeldFor(key, e, m, now)) else []
  }

  function AnswerEntry(key: SubKey, e: Entry, c: nat, snapshot: Msg): Entry {
    var i := Position(e.pending, c);
    if i == |e.pending| then e
    else
      e.(arb := if key.SingleSourced() then e.arb.(leader := Some(snapshot.src)) else e.arb,
         subscribers := e.subscribers + [c],
         pending := Removed(e.pending, i))
  }

  /** What a waiting client is sent when its snapshot arrives: the snapshot, then its backlog. */
  function AnswerFor(key: SubKey, e: Entry, c: nat, snapshot: Msg): seq<Msg> {
    var i := Position(e.pending, c);
    if i == |e.pending| then []
    else
      [snapshot] + Backlog(e.pending[i].held, snapshot.ord.stamp, key.SingleSourced(), snapshot.src)
  }

  predicate LedBy(e: Entry, s: nat) {
    e.arb.leader == Some(s)
  }

  function LoseEntry(key: SubKey, e: Entry, s: nat): Entry {
    if !LedBy(e, s) then e
    else if !key.IsIncremental() then
      if key.SingleSourced() then e.(arb := e.arb.(leader := None, sampled := {}, last := 0)) else e
    else
      e.(arb := e.arb.(leader := None, sampled := {}, last := 0,
                       needsSnapshot := e.arb.needsSnapshot + {SourceBit(s)}),
         subscribers := [],
         pending := e.pending + Parking(e.subscribers))
  }

  /** The clients whose snapshots must be fetched once the source is lost. */
  function Orphaned(key: SubKey, e: Entry, s: nat): seq<nat> {
    if LedBy(e, s) && key.IsIncremental() then e.subscribers else []
  }

  function GiveUpEntry(e: Entry, c: nat): Entry {
    var i := Position(e.pending, c);
    if i == |e.pending| then e else e.(pending := Removed(e.pending, i))
  }

  function KeyStep(key: SubKey, e: Entry, ev: KeyEvent): Entry {
    match ev
    case Join(c) => JoinEntry(key, e, c)
    case Leave(c) => LeaveEntry(e, c)
    case Pin => PinEntry(e)
    case Arrive(m, now) => UpdateEntry(key, e, m, now)
    case Answer(c, snapshot) => AnswerEntry(key, e, c, snapshot)
    case Lost(s) => LoseEntry(key, e, s)
    case GiveUp(c) => GiveUpEntry(e, c)
  }

  // ---------- Invariant ----------

  ghost predicate NoRepeats(s: seq<nat>) {
    forall c :: multiset(s)[c] <= 1
  }

  function ClientsOf(p: seq<Pending>): seq<nat> {
    seq(|p|, i requires 0 <= i < |p| => p[i].client)
  }

  function Listed(e: Entry): seq<nat> {
    e.subscribers + ClientsOf(e.pending)
  }

  function TotalLen(held: seq<Msg>): nat {
    if held == [] then 0 else TotalLen(held[..|held| - 1]) + held[|held| - 1].payload.len
  }

  ghost predicate Bounded(p: Pending) {
    p.bytes == TotalLen(p.held) <= PENDING_MAX_BYTES
  }

  ghost predicate AllBounded(pending: seq<Pending>) {
    forall p <- pending :: Bounded(p)
  }

  /** What every step of an entry keeps: no client is listed twice, in either list or across both;
      whoever is listed, and a pin, keeps the upstream subscription; every backlog is accounted for
      and within its cap; only an incremental channel parks clients or writes sources off; and a
      single-sourced channel without a leader holds no height. */
  ghost predicate WellFormed(key: SubKey, e: Entry) {
    && NoRepeats(Listed(e))
    && (e.subscribers != [] || e.pending != [] || e.pinned ==> e.upstream)
    && AllBounded(e.pending)
    && (!key.IsIncremental() ==> e.pending == [] && e.arb.needsSnapshot == {})
    && (key.SingleSourced() && e.arb.leader.None? ==> e.arb.last == 0)
  }

  /** Events the rest of the program can produce: a client holding the key does not join again, and
      frames come under the modes their channel is routed to. */
  ghost predicate Legal(key: SubKey, e: Entry, ev: KeyEvent) {
    match ev
    case Join(c) => c !in Listed(e)
    case Arrive(m, _) => Routable(key, m.ord)
    case Answer(_, snapshot) => snapshot.ord.Snapshot?
    case _ => true
  }

  lemma {:induction false} WithoutExactly(s: seq<nat>, c: nat)
    ensures multiset(Without(s, c)) == multiset(s)[c := 0]
    ensures c !in s ==> Without(s, c) == s
  {
    if s != [] {
      var k := |s| - 1;
      WithoutExactly(s[..k], c);
      OneMore(s[..k], s[k], c);
      assert s == s[..k] + [s[k]];
    }
  }

  lemma OneMore(s: seq<nat>, x: nat, c: nat)
    ensures multiset(s + [x])[c := 0] == multiset(s)[c := 0] + if x == c then multiset{} else multiset{x}
  {
  }

  lemma {:induction false} WithoutPendingClients(p: seq<Pending>, c: nat)
    ensures ClientsOf(WithoutPending(p, c)) == Without(ClientsOf(p), c)
    ensures forall x :: x in WithoutPending(p, c) ==> x in p
    ensures c !in ClientsOf(p) ==> WithoutPending(p, c) == p
  {
    if p != [] {
      var k := |p| - 1;
      WithoutPendingClients(p[..k], c);
      assert p == p[..k] + [p[k]];
      assert ClientsOf(p)[..k] == ClientsOf(p[..k]);
      assert ClientsOf(p)[k] == p[k].client;
    }
  }

  lemma {:induction false} WithoutAppend(s: seq<nat>, t: seq<nat>, c: nat)
    ensures Without(s + t, c) == Without(s, c) + Without(t, c)
  {
    if t == [] {
      assert s + t == s;
    } else {
      var k := |t| - 1;
      assert (s + t)[..|s| + k] == s + t[..k];
      WithoutAppend(s, t[..k], c);
    }
  }

  lemma {:induction false} KeptExactly(p: seq<Pending>)
    ensures forall x :: x in Kept(p) <==> x in p && x.bytes <= PENDING_MAX_BYTES
    ensures forall c :: c in Overflowed(p) <==> exists x :: x in p && x.client == c && x.bytes > PENDING_MAX_BYTES
  {
    if p != [] {
      var k := |p| - 1;
      KeptExactly(p[..k]);
      assert p == p[..k] + [p[k]];
    }
  }

  lemma {:induction false} KeptClients(p: seq<Pending>)
    ensures multiset(ClientsOf(Kept(p))) <= multiset(ClientsOf(p))
  {
    if p != [] {
      var k := |p| - 1;
      KeptClients(p[..k]);
      assert ClientsOf(p) == ClientsOf(p[..k]) + [p[k].client];
      if p[k].bytes <= PENDING_MAX_BYTES {
        assert ClientsOf(Kept(p)) == ClientsOf(Kept(p[..k])) + [p[k].client];
      } else {
        assert Kept(p) == Kept(p[..k]);
      }
    }
  }

  lemma FewerNoRepeats(s: seq<nat>, t: seq<nat>)
    requires NoRepeats(s) && multiset(t) <= multiset(s)
    ensures NoRepeats(t)
  {
    forall c ensures multiset(t)[c] <= 1 {
      assert multiset(s)[c] <= 1;
    }
  }

  lemma RemovedClients(p: seq<Pending>, i: nat)
    requires i < |p|
    ensures ClientsOf(p) == ClientsOf(p[..i]) + [p[i].client] + ClientsOf(p[i + 1..])
    ensures ClientsOf(Removed(p, i)) == ClientsOf(p[..i]) + ClientsOf(p[i + 1..])
  {
  }

  lemma ParkedIff(p: seq<Pending>, c: nat)
    ensures IsParked(p, c) <==> c in ClientsOf(p)
  {
    if c in ClientsOf(p) {
      var i :| 0 <= i < |p| && ClientsOf(p)[i] == c;
    }
    if IsParked(p, c) {
      assert ClientsOf(p)[Position(p, c)] == c;
    }
  }

  lemma HoldAllBounded(p: seq<Pending>, m: Msg)
    requires AllBounded(p)
    ensures ClientsOf(HoldAll(p, m)) == ClientsOf(p)
    ensures AllBounded(Kept(HoldAll(p, m)))
  {
    KeptExactly(HoldAll(p, m));
    forall x | x in Kept(HoldAll(p, m)) ensures Bounded(x) {
      var i :| 0 <= i < |p| && HoldAll(p, m)[i] == x;
      assert p[i] in p;
      assert x.held[..|x.held| - 1] == p[i].held;
    }
  }

  lemma JoinLists(key: SubKey, e: Entry, c: nat)
    requires c !in Listed(e)
    ensures multiset(Listed(JoinEntry(key, e, c))) == multiset(Listed(e)) + multiset{c}
  {
    ParkedIff(e.pending, c);
    hide IsParked;
    if e.upstream && key.IsIncremental() {
      assert c !in ClientsOf(e.pending);
      assert ClientsOf(e.pending + [Pending(c, [], 0)]) == ClientsOf(e.pending) + [c];
    } else {
      assert c !in e.subscribers;
    }
  }

  lemma ParkingBounded(p: seq<Pending>, clients: seq<nat>)
    requires AllBounded(p)
    ensures AllBounded(p + Parking(clients))
  {
    forall x | x in p + Parking(clients) ensures Bounded(x) {
      if x !in p {
        assert x in Parking(clients);
      }
    }
  }

  lemma OneMoreNoRepeats(s: seq<nat>, t: seq<nat>, c: nat)
    requires NoRepeats(s) && c !in s && multiset(t) == multiset(s) + multiset{c}
    ensures NoRepeats(t)
  {
    assert c !in multiset(s);
    forall x ensures multiset(t)[x] <= 1 {
      assert multiset(s)[x] <= 1;
    }
  }

  lemma StepJoin(key: SubKey, e: Entry, c: nat)
    requires WellFormed(key, e) && c !in Listed(e)
    ensures WellFormed(key, JoinEntry(key, e, c))
  {
    JoinLists(key, e, c);
    OneMoreNoRepeats(Listed(e), Listed(JoinEntry(key, e, c)), c);
    hide NoRepeats, Listed, IsParked;
    ParkingBounded(e.pending, [c]);
    assert Parking([c]) == [Pending(c, [], 0)];
  }

  lemma UnlistedExactly(e: Entry, c: nat)
    ensures multiset(Listed(Unlisted(e, c))) == multiset(Listed(e))[c := 0]
  {
    WithoutPendingClients(e.pending, c);
    WithoutAppend(e.subscribers, ClientsOf(e.pending), c);
    WithoutExactly(Listed(e), c);
  }

  lemma StepUnlist(key: SubKey, e: Entry, c: nat)
    requires WellFormed(key, e)
    ensures WellFormed(key, Unlisted(e, c))
  {
    var u := Unlisted(e, c);
    UnlistedExactly(e, c);
    FewerNoRepeats(Listed(e), Listed(u));
    WithoutPendingClients(e.pending, c);
    assert Without([], c) == [] && WithoutPending([], c) == [];
  }

  lemma StepLeave(key: SubKey, e: Entry, c: nat)
    requires WellFormed(key, e)
    ensures WellFormed(key, LeaveEntry(e, c))
  {
    StepUnlist(key, e, c);
    if LeaveDrops(e, c) {
      assert Listed(EMPTY) == [];
    }
  }

  lemma StepArrive(key: SubKey, e: Entry, m: Msg, now: nat)
    requires WellFormed(key, e) && Routable(key, m.ord)
    ensures WellFormed(key, UpdateEntry(key, e, m, now))
  {
    var n := UpdateEntry(key, e, m, now);
    if n.pending != e.pending {
      HoldAllBounded(e.pending, m);
      KeptClients(HoldAll(e.pending, m));
      FewerNoRepeats(Listed(e), Listed(n));
    }
    assert HoldAll([], m) == [] && Kept([]) == [];
    LeaderlessHeight(key, e.arb, m, now);
  }

  lemma LeaderlessHeight(key: SubKey, arb: Arb, m: Msg, now: nat)
    requires Routable(key, m.ord)
    requires key.SingleSourced() && arb.leader.None? ==> arb.last == 0
    requires !key.IsIncremental() ==> arb.needsSnapshot == {}
    ensures var n := Arbitrate(key, arb, m.src, m.ord, now).arb;
            && (key.SingleSourced() && n.leader.None? ==> n.last == 0)
            && (!key.IsIncremental() ==> n.needsSnapshot == {})
  {
  }

  lemma RemovedExactly(e: Entry, i: nat)
    requires i < |e.pending|
    ensures multiset(Listed(e))
         == multiset(e.subscribers + ClientsOf(Removed(e.pending, i))) + multiset{e.pending[i].client}
    ensures AllBounded(e.pending) ==> AllBounded(Removed(e.pending, i))
  {
    RemovedClients(e.pending, i);
  }

  lemma StepAnswer(key: SubKey, e: Entry, c: nat, snapshot: Msg)
    requires WellFormed(key, e)
    ensures WellFormed(key, AnswerEntry(key, e, c, snapshot))
    ensures multiset(Listed(AnswerEntry(key, e, c, snapshot))) == multiset(Listed(e))
  {
    var i := Position(e.pending, c);
    var n := AnswerEntry(key, e, c, snapshot);
    if i < |e.pending| {
      RemovedExactly(e, i);
      hide ClientsOf, Removed, Position;
      assert multiset(Listed(n)) == multiset(Listed(e));
      FewerNoRepeats(Listed(e), Listed(n));
      hide NoRepeats, Listed;
    }
  }

  lemma StepGiveUp(key: SubKey, e: Entry, c: nat)
    requires WellFormed(key, e)
    ensures WellFormed(key, GiveUpEntry(e, c))
  {
    var i := Position(e.pending, c);
    var n := GiveUpEntry(e, c);
    if i < |e.pending| {
      RemovedExactly(e, i);
      hide ClientsOf, Removed, Position;
      assert multiset(Listed(n)) <= multiset(Listed(e));
      FewerNoRepeats(Listed(e), Listed(n));
      hide NoRepeats, Listed;
    }
  }

  lemma StepLost(key: SubKey, e: Entry, s: nat)
    requires WellFormed(key, e)
    ensures WellFormed(key, LoseEntry(key, e, s))
    ensures multiset(Listed(LoseEntry(key, e, s))) == multiset(Listed(e))
  {
    var n := LoseEntry(key, e, s);
    if LedBy(e, s) && key.IsIncremental() {
      assert ClientsOf(n.pending) == ClientsOf(e.pending) + e.subscribers;
      assert multiset(Listed(n)) == multiset(Listed(e));
      FewerNoRepeats(Listed(e), Listed(n));
      ParkingBounded(e.pending, e.subscribers);
    }
  }

  /** Every step keeps the entry well formed. */
  lemma StepKeepsWellFormed(key: SubKey, e: Entry, ev: KeyEvent)
    requires WellFormed(key, e) && Legal(key, e, ev)
    ensures WellFormed(key, KeyStep(key, e, ev))
  {
    match ev
    case Join(c) => StepJoin(key, e, c);
    case Leave(c) => StepLeave(key, e, c);
    case Pin =>
    case Arrive(m, now) => StepArrive(key, e, m, now);
    case Answer(c, snapshot) => StepAnswer(key, e, c, snapshot);
    case Lost(s) => StepLost(key, e, s);
    case GiveUp(c) => StepGiveUp(key, e, c);
  }
}
