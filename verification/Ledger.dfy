/** The upstream subscriptions: what has been broadcast, what each node ends up subscribed to, and
what a reconnect does about it. */
module Ledger {
  import opened Wire
  import opened Arbiter
  import opened Entries
  import opened Registry
  import opened Membership

  /** What a node subscribed to `base` is subscribed to once the commands are through. */
  function Replay(base: set<SubKey>, cmds: seq<Ctrl>): set<SubKey> {
    if cmds == [] then base else Applied(Replay(base, cmds[..|cmds| - 1]), cmds[|cmds| - 1])
  }

  /** The command changes something; a repeated subscribe draws an error from the node. */
  predicate Needed(node: set<SubKey>, c: Ctrl) {
    match c
    case Sub(k) => k !in node
    case Unsub(k) => k in node
  }

  ghost predicate Effective(base: set<SubKey>, cmds: seq<Ctrl>) {
    forall i :: 0 <= i < |cmds| ==> Needed(Replay(base, cmds[..i]), cmds[i])
  }

  // ---------- Replaying ----------

  lemma {:induction false} ReplaySplit(base: set<SubKey>, a: seq<Ctrl>, b: seq<Ctrl>)
    ensures Replay(base, a + b) == Replay(Replay(base, a), b)
  {
    if b == [] {
      assert a + b == a;
    } else {
      var k := |b| - 1;
      assert (a + b)[..|a| + k] == a + b[..k];
      ReplaySplit(base, a, b[..k]);
    }
  }

  lemma ReplayAppend(base: set<SubKey>, cmds: seq<Ctrl>, c: Ctrl)
    ensures Replay(base, cmds + [c]) == Applied(Replay(base, cmds), c)
  {
    assert (cmds + [c])[..|cmds|] == cmds;
  }

  lemma EffectiveAppend(base: set<SubKey>, cmds: seq<Ctrl>, c: Ctrl)
    requires Effective(base, cmds) && Needed(Replay(base, cmds), c)
    ensures Effective(base, cmds + [c])
  {
    hide Replay, Needed;
    forall i | 0 <= i <= |cmds| ensures Needed(Replay(base, (cmds + [c])[..i]), (cmds + [c])[i]) {
      assert (cmds + [c])[..i] == cmds[..i];
      assert i == |cmds| ==> cmds[..i] == cmds;
    }
  }

  lemma ReplayHead(base: set<SubKey>, cmds: seq<Ctrl>)
    requires cmds != []
    ensures Replay(Applied(base, cmds[0]), cmds[1..]) == Replay(base, cmds)
    ensures Effective(base, cmds) ==> Effective(Applied(base, cmds[0]), cmds[1..])
  {
    var one := [cmds[0]];
    assert one[..0] == [];
    assert Replay(base, one) == Applied(base, cmds[0]);
    forall i | 1 <= i <= |cmds|
      ensures Replay(base, cmds[..i]) == Replay(Applied(base, cmds[0]), cmds[1..][..i - 1])
    {
      assert cmds[..i] == one + cmds[1..][..i - 1];
      ReplaySplit(base, one, cmds[1..][..i - 1]);
    }
    assert cmds[..|cmds|] == cmds && cmds[1..][..|cmds| - 1] == cmds[1..];
    hide Needed, Replay;
    if Effective(base, cmds) {
      forall i | 0 <= i < |cmds| - 1
        ensures Needed(Replay(Applied(base, cmds[0]), cmds[1..][..i]), cmds[1..][i])
      {
        assert Needed(Replay(base, cmds[..i + 1]), cmds[i + 1]);
      }
    }
  }

  predicate About(c: Ctrl, k: SubKey) {
    c.key == k
  }

  lemma {:induction false} UntouchedByOthers(base: set<SubKey>, cmds: seq<Ctrl>, k: SubKey)
    requires forall c <- cmds :: !About(c, k)
    ensures k in Replay(base, cmds) <==> k in base
  {
    if cmds != [] {
      UntouchedByOthers(base, cmds[..|cmds| - 1], k);
      assert cmds[|cmds| - 1] in cmds;
    }
  }

  /** A key the commands are about comes out the same from any base. */
  lemma {:induction false} OutcomeIsFixed(a: set<SubKey>, b: set<SubKey>, cmds: seq<Ctrl>, k: SubKey)
    requires exists c <- cmds :: About(c, k)
    ensures k in Replay(a, cmds) <==> k in Replay(b, cmds)
  {
    var n := |cmds| - 1;
    if !About(cmds[n], k) {
      assert cmds == cmds[..n] + [cmds[n]];
      OutcomeIsFixed(a, b, cmds[..n], k);
    }
  }

  /** Passing the same commands on a second time leads nowhere else. */
  lemma ReplayTwice(base: set<SubKey>, cmds: seq<Ctrl>)
    ensures Replay(Replay(base, cmds), cmds) == Replay(base, cmds)
  {
    var live := Replay(base, cmds);
    forall k ensures k in Replay(live, cmds) <==> k in live {
      if exists c <- cmds :: About(c, k) {
        OutcomeIsFixed(live, base, cmds, k);
      } else {
        UntouchedByOthers(live, cmds, k);
      }
    }
  }

  /** The last command about a key settles whether it is subscribed to. */
  lemma LastSettles(base: set<SubKey>, cmds: seq<Ctrl>, j: nat, i: nat, k: SubKey)
    requires j < i <= |cmds| && About(cmds[j], k) && forall m :: j < m < i ==> !About(cmds[m], k)
    ensures k in Replay(base, cmds[..i]) <==> cmds[j].Sub?
  {
    ReplayAppend(base, cmds[..j], cmds[j]);
    hide Replay;
    assert cmds[..j + 1] == cmds[..j] + [cmds[j]];
    assert cmds[..i] == cmds[..j + 1] + cmds[j + 1..i];
    ReplaySplit(base, cmds[..j + 1], cmds[j + 1..i]);
    UntouchedByOthers(Replay(base, cmds[..j + 1]), cmds[j + 1..i], k);
  }

  /** The commands about one key alternate, and a subscribe comes first. */
  lemma CommandsAlternate(cmds: seq<Ctrl>, i: nat, k: SubKey)
    requires Effective({}, cmds) && i < |cmds| && About(cmds[i], k)
    ensures (forall j :: 0 <= j < i ==> !About(cmds[j], k)) ==> cmds[i].Sub?
    ensures forall j :: 0 <= j < i && About(cmds[j], k) && (forall m :: j < m < i ==> !About(cmds[m], k)) ==>
              cmds[i].Sub? != cmds[j].Sub?
  {
    hide Replay;
    assert Needed(Replay({}, cmds[..i]), cmds[i]);
    if forall j :: 0 <= j < i ==> !About(cmds[j], k) {
      UntouchedByOthers({}, cmds[..i], k);
    }
    forall j | 0 <= j < i && About(cmds[j], k) && (forall m :: j < m < i ==> !About(cmds[m], k))
      ensures cmds[i].Sub? != cmds[j].Sub?
    {
      LastSettles({}, cmds, j, i, k);
    }
  }

  // ---------- The invariant ----------

  ghost predicate LinkSettled(l: Link, live: set<SubKey>) {
    match l.phase
    case Down => true
    case Emptied(before) => Replay(before, l.queue) == live && Effective(before, l.queue)
    case Up(clean) => Replay(l.node, l.queue) == live && (clean ==> Effective(l.node, l.queue))
  }

  ghost predicate LinksSettled(links: seq<Link>, live: set<SubKey>) {
    forall l <- links :: LinkSettled(l, live)
  }

  /** What has been broadcast adds up to the keys live upstream, no command of it repeats what already
      holds, and whatever is still queued for a connection brings its node to the same keys. */
  ghost predicate Settled(w: World) {
    && Replay({}, w.ledger) == Live(w)
    && Effective({}, w.ledger)
    && LinksSettled(w.links, Live(w))
  }

  lemma LinkHears(l: Link, live: set<SubKey>, c: Ctrl)
    requires LinkSettled(l, live) && Needed(live, c)
    ensures LinkSettled(l.(queue := l.queue + [c]), Applied(live, c))
  {
    hide Effective;
    match l.phase
    case Down =>
    case Emptied(before) =>
      ReplayAppend(before, l.queue, c);
      EffectiveAppend(before, l.queue, c);
    case Up(clean) =>
      ReplayAppend(l.node, l.queue, c);
      if clean {
        EffectiveAppend(l.node, l.queue, c);
      }
  }

  lemma BroadcastSettles(w: World, n: World, c: Ctrl)
    requires Settled(w) && Needed(Live(w), c)
    requires Live(n) == Applied(Live(w), c)
    requires n.ledger == w.ledger + [c] && n.links == Queued(w.links, c)
    ensures Settled(n)
  {
    hide Live, Replay, Effective, LinkSettled, Needed, Applied;
    ReplayAppend({}, w.ledger, c);
    EffectiveAppend({}, w.ledger, c);
    forall l | l in n.links ensures LinkSettled(l, Live(n)) {
      var i :| 0 <= i < |w.links| && l == n.links[i];
      assert w.links[i] in w.links;
      LinkHears(w.links[i], Live(w), c);
    }
  }

  lemma QuietSettles(w: World, n: World)
    requires Settled(w) && Live(n) == Live(w) && n.ledger == w.ledger && n.links == w.links
    ensures Settled(n)
  {
  }

  lemma EmptyReplays(base: set<SubKey>)
    ensures Replay(base, []) == base && Effective(base, [])
  {
  }

  lemma LinkStepSettles(w: World, ev: Event)
    requires Settled(w) && (ev.Empty? || ev.Resubscribe? || ev.Disconnect? || ev.Pump?)
    ensures Settled(Next(w, ev))
  {
    hide Effective, Replay, Live, Applied;
    var n := Next(w, ev);
    if Enabled(w, ev) {
      assert Live(n) == Live(w) by { SameEntriesSameLive(w, n); }
      var i := ev.link;
      var l := w.links[i];
      assert l in w.links;
      EmptyReplays(Live(w));
      if ev.Pump? && l.phase.Up? && l.queue != [] {
        ReplayHead(l.node, l.queue);
      }
      if ev.Resubscribe? && l.phase.Emptied? {
        ReplayTwice(l.phase.live, l.queue);
      }
      assert LinkSettled(n.links[i], Live(w));
      forall x | x in n.links ensures LinkSettled(x, Live(n)) {
        assert x == n.links[i] || x in w.links;
      }
    }
  }

  lemma SameEntriesSameLive(w: World, n: World)
    requires w.subs == n.subs
    ensures Live(w) == Live(n)
  {
  }

  lemma LiveIff(w: World, k: SubKey)
    ensures k in Live(w) <==> Lookup(w, k).upstream
  {
  }

  lemma DetachedSettles(w: World, c: nat, key: SubKey)
    requires Settled(w)
    ensures Settled(Detached(w, c, key))
  {
    hide Settled, LeaveDrops, Without, WithoutPending;
    var n := Detached(w, c, key);
    if key in w.subs && LeaveDrops(w.subs[key], c) {
      assert w.subs[key].upstream by { DropsOnlyLive(w.subs[key], c); }
      assert Live(n) == Live(w) - {key};
      BroadcastSettles(w, n, Unsub(key));
    } else {
      assert Live(n) == Live(w);
      QuietSettles(w, n);
    }
  }

  lemma DropsOnlyLive(e: Entry, c: nat)
    requires LeaveDrops(e, c)
    ensures e.upstream
  {
  }

  lemma {:induction false} DetachedAllSettles(w: World, c: nat, order: seq<SubKey>)
    requires Settled(w)
    ensures Settled(DetachedAll(w, c, order))
  {
    hide Settled, Detached;
    if order != [] {
      DetachedAllSettles(w, c, order[..|order| - 1]);
      DetachedSettles(DetachedAll(w, c, order[..|order| - 1]), c, order[|order| - 1]);
    }
  }

  lemma JoinOrPinSettles(w: World, ev: Event)
    requires Settled(w) && (ev.Subscribe? || ev.PinKey?)
    ensures Settled(Next(w, ev))
  {
    hide Settled, IsParked;
    var n := Next(w, ev);
    if Enabled(w, ev) {
      if n.ledger == w.ledger {
        assert Live(n) == Live(w);
        QuietSettles(w, n);
      } else {
        assert Live(n) == Live(w) + {ev.key};
        BroadcastSettles(w, n, Sub(ev.key));
      }
    }
  }

  lemma LeaveSettles(w: World, ev: Event)
    requires Settled(w) && (ev.Unsubscribe? || ev.Cleanup?)
    ensures Settled(Next(w, ev))
  {
    hide Settled, Detached, DetachedAll;
    if Enabled(w, ev) {
      match ev
      case Unsubscribe(c, key) =>
        if key in w.peers[c].keys {
          var held := WithKeys(w, c, w.peers[c].keys - {key});
          QuietSettles(w, held);
          DetachedSettles(held, c, key);
        }
      case Cleanup(c, order) =>
        var held := WithKeys(w, c, {}).(live := w.live - {c});
        QuietSettles(w, held);
        DetachedAllSettles(held, c, order);
    }
  }

  lemma OtherwiseSettles(w: World, ev: Event)
    requires Settled(w)
    requires !ev.Subscribe? && !ev.PinKey? && !ev.Unsubscribe? && !ev.Cleanup?
    requires !ev.Empty? && !ev.Resubscribe? && !ev.Disconnect? && !ev.Pump?
    ensures Settled(Next(w, ev))
  {
    hide Settled, Ruled, HeldFor, Evicted, FannedOut, Killed, Position, AnswerFor, SentBacklog, Parking;
    var n := Next(w, ev);
    assert Live(n) == Live(w);
    assert n.ledger == w.ledger && n.links == w.links;
    QuietSettles(w, n);
  }

  lemma StepSettles(w: World, ev: Event)
    requires Settled(w)
    ensures Settled(Next(w, ev))
  {
    hide *;
    if ev.Subscribe? || ev.PinKey? {
      JoinOrPinSettles(w, ev);
    } else if ev.Unsubscribe? || ev.Cleanup? {
      LeaveSettles(w, ev);
    } else if ev.Empty? || ev.Resubscribe? || ev.Disconnect? || ev.Pump? {
      LinkStepSettles(w, ev);
    } else {
      OtherwiseSettles(w, ev);
    }
  }

  lemma {:induction false} RunSettles(sources: nat, evs: seq<Event>)
    ensures Settled(After(Started(sources), evs))
  {
    hide Next;
    if evs == [] {
      assert Live(Started(sources)) == {};
      EmptyReplays({});
    } else {
      hide Settled, Started;
      RunSettles(sources, evs[..|evs| - 1]);
      StepSettles(After(Started(sources), evs[..|evs| - 1]), evs[|evs| - 1]);
    }
  }

  /** The upstream ledger, over every run of the registry: the broadcasts so far, replayed, name exactly
      the keys a reconnecting source is subscribed to; per key they alternate, subscribe first; and a
      connected node whose queue has been passed on is subscribed to exactly those keys, whatever was
      going on while it reconnected. */
  lemma LedgerHolds(sources: nat, evs: seq<Event>, key: SubKey)
    ensures var w := After(Started(sources), evs);
            && (key in Replay({}, w.ledger) <==> Lookup(w, key).upstream)
            && Effective({}, w.ledger)
            && (forall l <- w.links :: l.phase.Up? && l.queue == [] ==> l.node == Replay({}, w.ledger))
            && (forall l <- w.links :: l.phase.Up? ==> Replay(l.node, l.queue) == Replay({}, w.ledger))
            && (forall l <- w.links :: l.phase == Up(true) ==> Effective(l.node, l.queue))
  {
    hide After, Effective, Replay, Live, Started, Lookup;
    var w := After(Started(sources), evs);
    RunSettles(sources, evs);
    LiveIff(w, key);
    forall l <- w.links ensures LinkSettled(l, Live(w)) {
    }
    forall l <- w.links ensures Replay(l.node, []) == l.node {
      EmptyReplays(l.node);
    }
  }

  // ---------- The gap ----------

  lemma FirstAbout(cmds: seq<Ctrl>, k: SubKey) returns (i: nat)
    requires exists c <- cmds :: About(c, k)
    ensures i < |cmds| && About(cmds[i], k) && forall j :: 0 <= j < i ==> !About(cmds[j], k)
  {
    var c :| c in cmds && About(c, k);
    var last :| 0 <= last < |cmds| && cmds[last] == c;
    i := 0;
    while !About(cmds[i], k)
      invariant i <= last && forall j :: 0 <= j < i ==> !About(cmds[j], k)
      decreases last - i
    {
      i := i + 1;
    }
  }

  /** The first command about a key says the opposite of what its base holds. */
  lemma FirstEffect(base: set<SubKey>, cmds: seq<Ctrl>, i: nat)
    requires Effective(base, cmds) && i < |cmds|
    requires forall j :: 0 <= j < i ==> !About(cmds[j], cmds[i].key)
    ensures cmds[i].Sub? <==> cmds[i].key !in base
  {
    assert Needed(Replay(base, cmds[..i]), cmds[i]);
    UntouchedByOthers(base, cmds[..i], cmds[i].key);
  }

  /** Commands that each changed something repeat nothing when passed on to a node subscribed to their
      outcome exactly when their outcome is what they started from. */
  lemma RepeatsNothingIff(base: set<SubKey>, cmds: seq<Ctrl>)
    requires Effective(base, cmds)
    ensures Effective(Replay(base, cmds), cmds) <==> Replay(base, cmds) == base
  {
    var live := Replay(base, cmds);
    hide Replay, Effective;
    if Effective(live, cmds) {
      forall k ensures k in live <==> k in base {
        if exists c <- cmds :: About(c, k) {
          var i := FirstAbout(cmds, k);
          FirstEffect(base, cmds, i);
          FirstEffect(live, cmds, i);
        } else {
          UntouchedByOthers(base, cmds, k);
        }
      }
    }
  }

  /** Over every run of the registry: when a reconnecting source is subscribed to what is live, some
      command still queued for it repeats what it was just told exactly when the keys live at that
      moment are not those live when its queue was emptied. */
  lemma ReconnectRepeatsIff(sources: nat, evs: seq<Event>, i: nat)
    requires i < |After(Started(sources), evs).links|
    requires After(Started(sources), evs).links[i].phase.Emptied?
    ensures var w := After(Started(sources), evs);
            var l := Resubscribed(w, i).links[i];
            && Replay(l.node, l.queue) == l.node == Live(w)
            && (Effective(l.node, l.queue) <==> Live(w) == w.links[i].phase.live)
  {
    hide After, Effective, Replay, Live, Started;
    var w := After(Started(sources), evs);
    RunSettles(sources, evs);
    assert w.links[i] in w.links;
    assert LinkSettled(w.links[i], Live(w));
    RepeatsNothingIff(w.links[i].phase.live, w.links[i].queue);
    ReplayTwice(w.links[i].phase.live, w.links[i].queue);
  }

  // ---------- Connections ----------

  /** How a source's connection stands, by what happened to it last: it is up once it was emptied and then
      resubscribed, until it goes down. */
  datatype Connection = Off | Afresh | On

  function ConnectionOf(evs: seq<Event>, i: nat): Connection {
    if evs == [] then Off
    else
      var before := ConnectionOf(evs[..|evs| - 1], i);
      match evs[|evs| - 1]
      case Disconnect(j) => if i == j then Off else before
      case Empty(j) => if i == j then Afresh else before
      case Resubscribe(j) => if i == j && before == Afresh then On else before
      case _ => before
  }

  function PhaseOf(p: Phase): Connection {
    match p
    case Down => Off
    case Emptied(_) => Afresh
    case Up(_) => On
  }

  lemma LinksMove(w: World, ev: Event, i: nat)
    requires i < |w.links|
    ensures |Next(w, ev).links| == |w.links|
    ensures var (l, n) := (w.links[i], Next(w, ev).links[i]);
            && PhaseOf(n.phase) ==
                 (if ev == Disconnect(i) then Off else if ev == Empty(i) then Afresh
                  else if ev == Resubscribe(i) && l.phase.Emptied? then On else PhaseOf(l.phase))
            && (!l.phase.Up? && !ev.Empty? && !ev.Resubscribe? ==> n.node == l.node && l.queue <= n.queue)
            && (PhaseOf(n.phase) == Afresh ==>
                  if ev == Empty(i) then n.node == {} && n.queue == []
                  else PhaseOf(l.phase) == Afresh && n.node == l.node)
  {
    hide Updated, Answered, GivenUp, SourceLost, JoinEntry, PinEntry, LeaveDrops, Unlisted, Lookup, Live;
    hide DetachedAll, Detached;
    if Enabled(w, ev) {
      match ev
      case Unsubscribe(c, key) =>
        if key in w.peers[c].keys {
          DetachLinks(WithKeys(w, c, w.peers[c].keys - {key}), c, key);
        }
      case Cleanup(c, order) =>
        DetachAllLinks(WithKeys(w, c, {}).(live := w.live - {c}), c, order);
      case Update(key, m, now) =>
        OthersKeepLinks(w, ev);
      case DeliverSnapshot(_, _, _) =>
        OthersKeepLinks(w, ev);
      case FailPending(_, _) =>
        OthersKeepLinks(w, ev);
      case LoseSource(_) =>
        OthersKeepLinks(w, ev);
      case _ =>
    }
  }

  lemma OthersKeepLinks(w: World, ev: Event)
    requires ev.Update? || ev.DeliverSnapshot? || ev.FailPending? || ev.LoseSource?
    ensures Next(w, ev).links == w.links
  {
    hide UpdateEntry, FannedOut, Killed, AnswerEntry, AnswerFor, SentBacklog, GiveUpEntry, LoseEntry, IsParked;
  }

  /** The commands queued for each link grow, and nothing else about it changes. */
  ghost predicate OnlyQueued(a: seq<Link>, b: seq<Link>) {
    |a| == |b| && forall i :: 0 <= i < |a| ==>
      a[i].queue <= b[i].queue && a[i].phase == b[i].phase && a[i].node == b[i].node
  }

  lemma DetachLinks(w: World, c: nat, key: SubKey)
    ensures OnlyQueued(w.links, Detached(w, c, key).links)
  {
    hide LeaveDrops, Unlisted;
  }

  lemma {:induction false} DetachAllLinks(w: World, c: nat, order: seq<SubKey>)
    ensures OnlyQueued(w.links, DetachedAll(w, c, order).links)
  {
    hide Detached;
    if order != [] {
      DetachAllLinks(w, c, order[..|order| - 1]);
      DetachLinks(DetachedAll(w, c, order[..|order| - 1]), c, order[|order| - 1]);
    }
  }

  /** Over every run, each source's connection stands as what happened to it says, and nothing is subscribed
      over one that was only emptied. */
  lemma {:induction false} ConnectionsStand(sources: nat, evs: seq<Event>, i: nat)
    requires i < sources
    ensures var w := After(Started(sources), evs);
            && |w.links| == sources && PhaseOf(w.links[i].phase) == ConnectionOf(evs, i)
            && (ConnectionOf(evs, i) == Afresh ==> w.links[i].node == {})
  {
    hide Next, PhaseOf;
    if evs == [] {
      assert PhaseOf(Down) == Off by { DownIsOff(); }
    } else {
      ConnectionsStand(sources, evs[..|evs| - 1], i);
      var w := After(Started(sources), evs[..|evs| - 1]);
      LinksMove(w, evs[|evs| - 1], i);
      EmptiedIsAfresh(w.links[i].phase);
    }
  }

  lemma DownIsOff()
    ensures PhaseOf(Down) == Off
  {
  }

  lemma EmptiedIsAfresh(p: Phase)
    ensures PhaseOf(p) == Afresh <==> p.Emptied?
  {
  }

  /** What the queue needs emptying for: a first subscribe made between emptying it and listing what is
      live reaches the node twice. A node that was subscribed with nothing queued never sees that. */
  lemma SubscribeInTheGapRepeats(w: World, c: nat, key: SubKey, i: nat)
    requires c in w.peers && key !in w.peers[c].keys && !Lookup(w, key).upstream
    requires i < |w.links| && w.links[i] == Link(Emptied(Live(w)), [], {})
    ensures var n := Next(Next(w, Subscribe(c, key)), Resubscribe(i));
            && i < |n.links|
            && n.links[i].queue == [Sub(key)]
            && !Needed(n.links[i].node, Sub(key))
  {
    hide Queued, JoinEntry;
    var joined := Next(w, Subscribe(c, key));
    QueuedAt(w.links, Sub(key), i);
    assert joined.links[i] == Link(Emptied(Live(w)), [Sub(key)], {});
    JoinGoesUpstream(key, Lookup(w, key), c);
    assert key in Live(joined);
  }

  lemma QueuedAt(links: seq<Link>, c: Ctrl, i: nat)
    requires i < |links|
    ensures |Queued(links, c)| == |links| && Queued(links, c)[i] == links[i].(queue := links[i].queue + [c])
  {
  }

  lemma JoinGoesUpstream(key: SubKey, e: Entry, c: nat)
    ensures JoinEntry(key, e, c).upstream
  {
  }
}
