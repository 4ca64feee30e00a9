/** Losing a source, seen from the whole registry: who must be rebuilt, and that nobody else notices. */
module Losing {
  import opened Wire
  import opened Arbiter
  import opened Entries
  import opened Streams
  import opened Registry
  import opened Membership
  import opened WriteOff

  lemma OrphansCounted(key: SubKey, e: Entry, s: nat, c: nat)
    requires WellFormed(key, e)
    ensures multiset(Orphaned(key, e, s))[c] == if c in Orphaned(key, e, s) then 1 else 0
  {
    assert multiset(Listed(e))[c] <= 1;
    assert c in Orphaned(key, e, s) <==> c in multiset(Orphaned(key, e, s));
  }

  lemma OrphansWaitAfresh(key: SubKey, e: Entry, s: nat, c: nat)
    requires WellFormed(key, e) && c in Orphaned(key, e, s)
    ensures var n := LoseEntry(key, e, s);
            IsParked(n.pending, c) && HeldBehind(n, c) == [] && c !in n.subscribers
  {
    var n := LoseEntry(key, e, s);
    StepLost(key, e, s);
    PendingNoRepeats(key, n);
    hide WellFormed, NoRepeats;
    var i :| 0 <= i < |e.subscribers| && e.subscribers[i] == c;
    assert Parking(e.subscribers)[i] == Pending(c, [], 0);
    assert Pending(c, [], 0) in n.pending;
    PlaceIsUnique(n.pending, c, Pending(c, [], 0));
  }

  /** Losing a source is exact, conserving and idempotent, in any registry: no incremental or
      single-sourced key is led by it afterwards; a key it was not leading is untouched; the clients to
      rebuild are those attached to the incremental keys it was leading, each once, and each waits with
      nothing held behind it; on no key is anyone listed or unlisted by it; and a second call finds
      nothing to do. */
  lemma LosingASource(w: World, s: nat, k: SubKey, c: nat)
    requires RegistryInv(w)
    ensures var (e, n) := (Lookup(w, k), Lookup(SourceLost(w, s), k));
            && (k.IsIncremental() || k.SingleSourced() ==> !LedBy(n, s))
            && (!LedBy(e, s) ==> n == e)
            && multiset(Orphaned(k, e, s))[c]
               == (if k.IsIncremental() && LedBy(e, s) && c in e.subscribers then 1 else 0)
            && (c in Orphaned(k, e, s) ==> IsParked(n.pending, c) && HeldBehind(n, c) == [] && c !in n.subscribers)
            && multiset(Listed(n)) == multiset(Listed(e))
            && n.upstream == e.upstream && n.pinned == e.pinned
            && Orphaned(k, n, s) == []
    ensures SourceLost(SourceLost(w, s), s) == SourceLost(w, s)
  {
    hide LoseEntry, WellFormed, Listed, HeldBehind, IsParked;
    var e := Lookup(w, k);
    RegistryWellFormed(w, k);
    LosingIsExact(k, e, s);
    LosingIsIdempotent(k, e, s);
    EmptyEntryLoses(k, s);
    assert Lookup(SourceLost(w, s), k) == LoseEntry(k, e, s);
    OrphansCounted(k, e, s, c);
    if c in Orphaned(k, e, s) {
      OrphansWaitAfresh(k, e, s, c);
    }
    forall x | x in w.subs ensures LoseEntry(x, LoseEntry(x, w.subs[x], s), s) == LoseEntry(x, w.subs[x], s) {
      LosingIsIdempotent(x, w.subs[x], s);
    }
  }
}
