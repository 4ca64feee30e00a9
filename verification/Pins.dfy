/** The probe's pin, and when a leave gives up the upstream subscription. */
module Pins {
  import opened Wire
  import opened Arbiter
  import opened Entries
  import opened Streams
  import opened Registry
  import opened Membership

  // ---------- One entry ----------

  /** A leave gives the subscription up when nobody else is listed and nothing pins it. */
  lemma LeaveDropsIff(e: Entry, d: nat)
    ensures LeaveDrops(e, d) <==> e.upstream && !e.pinned && forall c <- Listed(e) :: c == d
  {
    var u := Unlisted(e, d);
    NobodyListed(u);
    forall c ensures c in Listed(u) <==> c in Listed(e) && c != d {
      UnlistedIff(e, d, c);
    }
    hide Listed, Without, WithoutPending;
    if Listed(u) != [] {
      assert Listed(u)[0] in Listed(u);
    }
  }

  lemma StepPins(key: SubKey, e: Entry, ev: KeyEvent)
    ensures KeyStep(key, e, ev).pinned <==> e.pinned || ev.Pin?
    ensures ev.Pin? ==> KeyStep(key, e, ev).upstream
    ensures e.pinned && e.upstream ==> KeyStep(key, e, ev).upstream
  {
    hide Ruled, HeldFor, Kept, Without, WithoutPending, Removed, Parking, IsParked, Position;
  }

  // ---------- The registry ----------

  lemma NextPins(w: World, ev: Event, k: SubKey)
    ensures Lookup(Next(w, ev), k).pinned <==> Lookup(w, k).pinned || ev == PinKey(k)
    ensures ev == PinKey(k) ==> Lookup(Next(w, ev), k).upstream
    ensures Lookup(w, k).pinned && Lookup(w, k).upstream ==> Lookup(Next(w, ev), k).upstream
  {
    hide Next, Lookup, Run, KeyStep;
    StepView(w, ev, k);
    RunOfAtMostOne(k, Lookup(w, k), Project(w, ev, k));
    ProjectsPin(w, ev, k);
    if Project(w, ev, k) != [] {
      StepPins(k, Lookup(w, k), Project(w, ev, k)[0]);
    }
  }

  lemma ProjectsPin(w: World, ev: Event, k: SubKey)
    ensures ev == PinKey(k) <==> Project(w, ev, k) != [] && Project(w, ev, k)[0].Pin?
  {
    hide Lookup;
  }

  /** Over every run of the registry, a key is pinned exactly when it has been, and then it is live. */
  lemma {:induction false} PinnedIff(sources: nat, evs: seq<Event>, k: SubKey)
    ensures var e := Lookup(After(Started(sources), evs), k);
            && (e.pinned <==> PinKey(k) in evs)
            && (PinKey(k) in evs ==> e.upstream)
  {
    hide Next, Lookup;
    if evs == [] {
      NothingPinned(sources, k);
    } else {
      var n := |evs| - 1;
      PinnedIff(sources, evs[..n], k);
      NextPins(After(Started(sources), evs[..n]), evs[n], k);
      assert evs == evs[..n] + [evs[n]];
    }
  }

  lemma NothingPinned(sources: nat, k: SubKey)
    ensures !Lookup(After(Started(sources), []), k).pinned
  {
  }

  /** One leave: it is passed upstream exactly when the key is live, unpinned, and nobody else is listed. */
  lemma DetachTells(w: World, c: nat, key: SubKey)
    ensures var e := Lookup(w, key);
            Detached(w, c, key).ledger == w.ledger
              + if e.upstream && !e.pinned && forall d <- Listed(e) :: d == c then [Unsub(key)] else []
  {
    LeaveDropsIff(Lookup(w, key), c);
    hide LeaveDrops, Listed, Unlisted;
  }

  /** Whatever a step adds to the ledger, it does not give up a pinned key. */
  ghost predicate KeepsPin(w: World, n: World, k: SubKey) {
    |w.ledger| <= |n.ledger| && n.ledger[..|w.ledger|] == w.ledger && Unsub(k) !in n.ledger[|w.ledger|..]
  }

  lemma KeepsPinOn(a: World, b: World, c: World, k: SubKey)
    requires KeepsPin(a, b, k) && KeepsPin(b, c, k)
    ensures KeepsPin(a, c, k)
  {
    forall i | |a.ledger| <= i < |c.ledger| ensures c.ledger[i] != Unsub(k) {
      if i < |b.ledger| {
        assert c.ledger[i] == b.ledger[i] == b.ledger[|a.ledger|..][i - |a.ledger|];
      } else {
        assert c.ledger[i] == c.ledger[|b.ledger|..][i - |b.ledger|];
      }
    }
  }

  lemma DetachKeepsPin(w: World, c: nat, key: SubKey, k: SubKey)
    requires Lookup(w, k).pinned
    ensures KeepsPin(w, Detached(w, c, key), k) && Lookup(Detached(w, c, key), k).pinned
  {
    DetachTells(w, c, key);
    DetachedView(w, c, key, k);
    hide Detached, Listed, Without, WithoutPending;
  }

  lemma {:induction false} DetachAllKeepsPin(w: World, c: nat, order: seq<SubKey>, k: SubKey)
    requires Lookup(w, k).pinned
    ensures KeepsPin(w, DetachedAll(w, c, order), k) && Lookup(DetachedAll(w, c, order), k).pinned
  {
    hide Detached, Lookup;
    if order != [] {
      var n := |order| - 1;
      DetachAllKeepsPin(w, c, order[..n], k);
      hide KeepsPin;
      DetachKeepsPin(DetachedAll(w, c, order[..n]), c, order[n], k);
      KeepsPinOn(w, DetachedAll(w, c, order[..n]), DetachedAll(w, c, order), k);
    }
  }

  lemma StepKeepsPin(w: World, ev: Event, k: SubKey)
    requires Lookup(w, k).pinned
    ensures KeepsPin(w, Next(w, ev), k)
  {
    hide Detached, DetachedAll, JoinEntry, PinEntry, UpdateEntry, LoseEntry, AnswerEntry, GiveUpEntry, AnswerFor;
    hide FannedOut, Killed, Evicted, Ruled, SentBacklog, IsParked, Live, Queued;
    if Enabled(w, ev) {
      match ev
      case Unsubscribe(c, key) =>
        if key in w.peers[c].keys {
          DetachKeepsPin(WithKeys(w, c, w.peers[c].keys - {key}), c, key, k);
        }
      case Cleanup(c, order) =>
        DetachAllKeepsPin(WithKeys(w, c, {}).(live := w.live - {c}), c, order, k);
      case _ =>
    }
  }

  /** Once a key has been pinned, no unsubscribe for it ever goes upstream, whoever comes and goes. */
  lemma {:induction false} PinnedIsNeverGivenUp(sources: nat, evs: seq<Event>, i: nat, k: SubKey)
    requires i <= |evs| && PinKey(k) in evs[..i]
    ensures KeepsPin(After(Started(sources), evs[..i]), After(Started(sources), evs), k)
  {
    hide Next, Started;
    if i == |evs| {
      assert evs[..i] == evs;
    } else {
      var n := |evs| - 1;
      assert evs[..n][..i] == evs[..i];
      PinnedIsNeverGivenUp(sources, evs[..n], i, k);
      assert PinKey(k) in evs[..n];
      PinnedIff(sources, evs[..n], k);
      hide KeepsPin;
      StepKeepsPin(After(Started(sources), evs[..n]), evs[n], k);
      KeepsPinOn(After(Started(sources), evs[..i]), After(Started(sources), evs[..n]), After(Started(sources), evs), k);
    }
  }

  /** When an unsubscribe goes upstream, over every run of the registry: exactly when the key is live, nobody
      but the client is listed for it, and it was never pinned. */
  lemma UnsubscribeGoesUpstreamIff(sources: nat, evs: seq<Event>, c: nat, k: SubKey)
    requires var w := After(Started(sources), evs); c in w.peers && k in w.peers[c].keys
    ensures var (w, e) := (After(Started(sources), evs), Lookup(After(Started(sources), evs), k));
            var given := e.upstream && PinKey(k) !in evs && forall d <- Listed(e) :: d == c;
            && Next(w, Unsubscribe(c, k)).ledger == w.ledger + (if given then [Unsub(k)] else [])
            && (Lookup(Next(w, Unsubscribe(c, k)), k).upstream <==> e.upstream && !given)
  {
    hide After, Started, Detached, Listed, LeaveDrops, Without, WithoutPending;
    var w := After(Started(sources), evs);
    PinnedIff(sources, evs, k);
    var held := WithKeys(w, c, w.peers[c].keys - {k});
    DetachTells(held, c, k);
    DetachedView(held, c, k, k);
    LeaveDropsIff(Lookup(w, k), c);
  }

  /** The same for a client that is removed, for each key it held. */
  lemma RemovalGoesUpstreamIff(sources: nat, evs: seq<Event>, c: nat, order: seq<SubKey>, k: SubKey)
    requires var w := After(Started(sources), evs);
             c in w.peers && k in w.peers[c].keys && multiset(order) == multiset(w.peers[c].keys)
    ensures var (w, e) := (After(Started(sources), evs), Lookup(After(Started(sources), evs), k));
            var given := e.upstream && PinKey(k) !in evs && forall d <- Listed(e) :: d == c;
            Lookup(Next(w, Cleanup(c, order)), k).upstream <==> e.upstream && !given
  {
    hide After, Started, CleanedUp, Listed, LeaveDrops, Without, WithoutPending;
    var w := After(Started(sources), evs);
    PinnedIff(sources, evs, k);
    CleanedUpView(w, c, order, k);
    LeaveDropsIff(Lookup(w, k), c);
  }
}
