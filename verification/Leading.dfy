/** Whom a subscription's stream comes from, said by what went out, and what that makes of a loss. */
module Leading {
  import opened Wire
  import opened Arbiter
  import opened Entries
  import opened Streams
  import opened Epochs
  import opened Registry
  import opened Membership

  /** Whom the stream came from last: who sent the last frame to go out or, on the channels one source
      carries, whose snapshot last answered a waiting client. Nobody, once that source is lost on a channel
      that follows sources, or once the entry is dropped. */
  function CameFrom(key: SubKey, evs: seq<KeyEvent>): Option<nat> {
    if evs == [] then None
    else
      var k := |evs| - 1;
      ComesFrom(key, Run(key, EMPTY, evs[..k]), evs[k], CameFrom(key, evs[..k]))
  }

  function ComesFrom(key: SubKey, e: Entry, ev: KeyEvent, from: Option<nat>): Option<nat> {
    match ev
    case Arrive(m, _) => if Forwards(key, e, ev) != [] then Some(m.src) else from
    case Lost(s) => if from == Some(s) && (key.L4Book? || key.L2Diff? || key.L2Book?) then None else from
    case Answer(c, snapshot) =>
      if (key.L2Diff? || key.L2Book?) && IsParked(e.pending, c) then Some(snapshot.src) else from
    case Leave(_) => if Drops(e, ev) then None else from
    case _ => from
  }

  lemma ArrivalLeads(key: SubKey, e: Entry, m: Msg, now: nat)
    requires !key.Trades? && Routable(key, m.ord)
    ensures UpdateEntry(key, e, m, now).arb.leader
         == if Ruled(key, e, m, now).deliver then Some(m.src) else e.arb.leader
  {
    hide Kept, HeldFor, Bumped;
  }

  lemma StepLeads(key: SubKey, e: Entry, ev: KeyEvent)
    requires !key.Trades? && Legal(key, e, ev)
    ensures KeyStep(key, e, ev).arb.leader == ComesFrom(key, e, ev, e.arb.leader)
  {
    hide UpdateEntry, LeaveDrops, Without, WithoutPending, Removed, Listed;
    if ev.Arrive? {
      ArrivalLeads(key, e, ev.msg, ev.now);
    }
  }

  /** Over every legal run of an unused entry, whatever its channel but for trades, the entry is led by
      whom its stream came from last. */
  lemma {:induction false} LeaderIsWhoItCameFrom(key: SubKey, evs: seq<KeyEvent>)
    requires !key.Trades? && LegalRun(key, EMPTY, evs)
    ensures Run(key, EMPTY, evs).arb.leader == CameFrom(key, evs)
  {
    hide KeyStep, ComesFrom, Legal;
    if evs != [] {
      var k := |evs| - 1;
      LegalPrefix(key, EMPTY, evs, k);
      LeaderIsWhoItCameFrom(key, evs[..k]);
      StepLeads(key, Run(key, EMPTY, evs[..k]), evs[k]);
    }
  }

  /** Nobody leads, nothing has been shown and nobody been charged; what was counted of the open block, and
      when it opened, is left alone. */
  predicate Freed(arb: Arb, next: Arb) {
    && next.leader == None && next.last == 0 && next.sampled == {}
    && next.sent == arb.sent && next.seen == arb.seen && next.seenAt == arb.seenAt
  }

  /** What a loss does to an incremental subscription, said by what went out: when the stream came from the
      lost source, its attached clients are to be rebuilt, wait behind those already waiting with nothing
      held, and the source is written off; when it did not, nothing changes and nobody is to be rebuilt. */
  lemma LossFollowsTheStream(key: SubKey, evs: seq<KeyEvent>, s: nat)
    requires (key.L4Book? || key.L2Diff?) && LegalRun(key, EMPTY, evs)
    ensures var e := Run(key, EMPTY, evs);
            var n := KeyStep(key, e, Lost(s));
            if CameFrom(key, evs) == Some(s) then
              && Orphaned(key, e, s) == e.subscribers && n.subscribers == []
              && |n.pending| == |e.pending| + |e.subscribers| && n.pending[..|e.pending|] == e.pending
              && (forall i :: 0 <= i < |e.subscribers|
                    ==> n.pending[|e.pending| + i] == Pending(e.subscribers[i], [], 0))
              && n.arb.needsSnapshot == e.arb.needsSnapshot + {SourceBit(s)}
              && Freed(e.arb, n.arb) && n.upstream == e.upstream && n.pinned == e.pinned
            else n == e && Orphaned(key, e, s) == []
  {
    hide *;
    LeaderIsWhoItCameFrom(key, evs);
    LossIsWhole(key, Run(key, EMPTY, evs), s);
  }

  lemma LossIsWhole(key: SubKey, e: Entry, s: nat)
    requires key.L4Book? || key.L2Diff?
    ensures var n := KeyStep(key, e, Lost(s));
            if e.arb.leader == Some(s) then
              && Orphaned(key, e, s) == e.subscribers && n.subscribers == []
              && |n.pending| == |e.pending| + |e.subscribers| && n.pending[..|e.pending|] == e.pending
              && (forall i :: 0 <= i < |e.subscribers|
                    ==> n.pending[|e.pending| + i] == Pending(e.subscribers[i], [], 0))
              && n.arb.needsSnapshot == e.arb.needsSnapshot + {SourceBit(s)}
              && Freed(e.arb, n.arb) && n.upstream == e.upstream && n.pinned == e.pinned
            else n == e && Orphaned(key, e, s) == []
  {
    if e.arb.leader == Some(s) {
      var p := Parking(e.subscribers);
      assert (e.pending + p)[..|e.pending|] == e.pending;
      forall i | 0 <= i < |e.subscribers| ensures (e.pending + p)[|e.pending| + i] == p[i] {
      }
    }
  }

  /** The same, where a loss parks nobody: an `l2Book` subscription is only freed for the next source, and
      on the other channels nothing happens at all. */
  lemma LossElsewhere(key: SubKey, evs: seq<KeyEvent>, s: nat)
    requires !key.L4Book? && !key.L2Diff? && LegalRun(key, EMPTY, evs)
    ensures var e := Run(key, EMPTY, evs);
            var n := KeyStep(key, e, Lost(s));
            && Orphaned(key, e, s) == []
            && n.subscribers == e.subscribers && n.pending == e.pending
            && n.upstream == e.upstream && n.pinned == e.pinned
            && (key.L2Book? && CameFrom(key, evs) == Some(s) ==>
                  Freed(e.arb, n.arb) && n.arb.needsSnapshot == e.arb.needsSnapshot)
            && (!key.L2Book? || CameFrom(key, evs) != Some(s) ==> n == e)
  {
    hide Run, CameFrom, LegalRun;
    if !key.Trades? {
      LeaderIsWhoItCameFrom(key, evs);
    }
  }

  /** Over every run of the registry: a loss is work for exactly the clients attached to the incremental
      keys whose stream came from the lost source last. */
  lemma LossRebuildsWhomItCarried(sources: nat, evs: seq<Event>, s: nat, k: SubKey)
    ensures var w := After(Started(sources), evs);
            var (e, run) := (Lookup(w, k), ProjectRun(Started(sources), evs, k));
            && Orphaned(k, e, s)
               == (if (k.L4Book? || k.L2Diff?) && CameFrom(k, run) == Some(s) then e.subscribers else [])
            && (CameFrom(k, run) != Some(s) && !k.Trades? ==> Lookup(SourceLost(w, s), k) == e)
  {
    var w, run := After(Started(sources), evs), ProjectRun(Started(sources), evs, k);
    hide After, ProjectRun, CameFrom, LegalRun, Run, KeyStep, Orphaned, RegistryInv, WellFormed;
    StartsRegistry(sources);
    NothingYet(sources, k);
    ProjectedRunIsLegal(Started(sources), evs, k);
    RunView(Started(sources), evs, k);
    LostView(w, s, k);
    if k.L4Book? || k.L2Diff? {
      LossFollowsTheStream(k, run, s);
    } else {
      LossElsewhere(k, run, s);
    }
  }

  lemma NothingYet(sources: nat, k: SubKey)
    ensures Lookup(Started(sources), k) == EMPTY
  {
  }

  lemma LostView(w: World, s: nat, k: SubKey)
    ensures Lookup(SourceLost(w, s), k) == KeyStep(k, Lookup(w, k), Lost(s))
  {
    hide LoseEntry;
    EmptyEntryLoses(k, s);
  }
}
