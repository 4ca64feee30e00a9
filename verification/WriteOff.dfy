/** Losing a source: what is let go of, who is parked, and the write-off that lasts until the source
snapshots again. */
module WriteOff {
  import opened Wire
  import opened Arbiter
  import opened Entries
  import opened Streams
  import opened Epochs

  /** Losing a source touches only the entries it leads. From an incremental or single-sourced one it
      takes the lead and the height; the clients of an incremental one, and nobody else's, all move
      behind those already waiting, nobody gained and nobody lost. */
  lemma LosingIsExact(key: SubKey, e: Entry, s: nat)
    ensures var n := LoseEntry(key, e, s);
            && (key.IsIncremental() || key.SingleSourced() ==> !LedBy(n, s))
            && (!LedBy(e, s) || (!key.IsIncremental() && !key.SingleSourced()) ==> n == e)
            && (n != e ==> n.arb.leader.None? && n.arb.last == 0)
            && ClientsOf(n.pending) == ClientsOf(e.pending) + Orphaned(key, e, s)
            && multiset(Listed(n)) == multiset(Listed(e))
            && (Orphaned(key, e, s) != [] ==> n.subscribers == [])
            && (Orphaned(key, e, s) == [] ==> n.subscribers == e.subscribers)
            && n.upstream == e.upstream && n.pinned == e.pinned
    ensures Orphaned(key, e, s) == if key.IsIncremental() && LedBy(e, s) then e.subscribers else []
  {
    var n := LoseEntry(key, e, s);
    assert ClientsOf(n.pending) == ClientsOf(e.pending) + Orphaned(key, e, s);
    assert multiset(Listed(n)) == multiset(Listed(e));
  }

  /** Losing the same source again finds nothing left to do. */
  lemma LosingIsIdempotent(key: SubKey, e: Entry, s: nat)
    ensures var n := LoseEntry(key, e, s);
            LoseEntry(key, n, s) == n && Orphaned(key, n, s) == []
  {
    hide Parking;
  }

  // ---------- The write-off ----------

  /** A snapshot arrives from a source sharing the bit. */
  predicate Excuses(ev: KeyEvent, bit: nat) {
    ev.Arrive? && ev.msg.ord.Snapshot? && SourceBit(ev.msg.src) == bit
  }

  /** The step writes off a source sharing the bit. */
  predicate WritesOff(key: SubKey, e: Entry, ev: KeyEvent, bit: nat) {
    Parks(key, e, ev) && SourceBit(ev.source) == bit
  }

  lemma ArriveBits(key: SubKey, e: Entry, m: Msg, now: nat)
    ensures UpdateEntry(key, e, m, now).arb.needsSnapshot
         == e.arb.needsSnapshot - if m.ord.Snapshot? then {SourceBit(m.src)} else {}
  {
    hide Kept, HeldFor, Bumped;
  }

  /** One step changes one bit in exactly these ways. */
  lemma StepBit(key: SubKey, e: Entry, ev: KeyEvent, bit: nat)
    requires !Drops(e, ev)
    ensures bit in KeyStep(key, e, ev).arb.needsSnapshot <==>
              WritesOff(key, e, ev, bit) || (bit in e.arb.needsSnapshot && !Excuses(ev, bit))
  {
    hide UpdateEntry, LeaveDrops, Without, WithoutPending;
    if ev.Arrive? {
      ArriveBits(key, e, ev.msg, ev.now);
    }
  }

  /** While the entry lives and no source sharing the bit is written off anew, a written-off bit stays
      set exactly as long as no source sharing it has sent a snapshot. */
  lemma {:induction false} StaysWrittenOffIff(key: SubKey, e: Entry, evs: seq<KeyEvent>, bit: nat)
    requires bit in e.arb.needsSnapshot
    requires forall i :: 0 <= i < |evs| ==>
               var before := Run(key, e, evs[..i]);
               !Drops(before, evs[i]) && !WritesOff(key, before, evs[i], bit)
    ensures bit in Run(key, e, evs).arb.needsSnapshot <==> forall ev <- evs :: !Excuses(ev, bit)
  {
    hide KeyStep, Drops, WritesOff;
    if evs != [] {
      var k := |evs| - 1;
      forall i | 0 <= i < k ensures evs[..k][..i] == evs[..i] && evs[..k][i] == evs[i] {
      }
      StaysWrittenOffIff(key, e, evs[..k], bit);
      StepBit(key, Run(key, e, evs[..k]), evs[k], bit);
      assert evs == evs[..k] + [evs[k]];
    }
  }

  /** Dropping entries and excuses aside, a set bit stays set whatever else happens. */
  lemma {:induction false} BitStays(key: SubKey, e: Entry, evs: seq<KeyEvent>, bit: nat)
    requires bit in e.arb.needsSnapshot
    requires forall i :: 0 <= i < |evs| ==> !Drops(Run(key, e, evs[..i]), evs[i]) && !Excuses(evs[i], bit)
    ensures bit in Run(key, e, evs).arb.needsSnapshot
  {
    hide KeyStep, Drops, Excuses;
    if evs != [] {
      var k := |evs| - 1;
      forall i | 0 <= i < k ensures evs[..k][..i] == evs[..i] && evs[..k][i] == evs[i] {
      }
      BitStays(key, e, evs[..k], bit);
      StepBit(key, Run(key, e, evs[..k]), evs[k], bit);
    }
  }

  /** A block frame of a written-off source is counted stale, charged to nobody, and changes nothing. */
  lemma WrittenOffBlockIsDropped(key: SubKey, e: Entry, m: Msg, now: nat)
    requires SourceBit(m.src) in e.arb.needsSnapshot && m.ord.Block?
    ensures Forwards(key, e, Arrive(m, now)) == []
    ensures Ruled(key, e, m, now).stale && Ruled(key, e, m, now).late.None? && !Ruled(key, e, m, now).win
    ensures UpdateEntry(key, e, m, now) == e
  {
  }

  /** Once a source is lost while leading an `l4Book` subscription, no block frame of its is forwarded
      there until a snapshot of its arrives, whatever the other sources and the clients do, for as
      long as the entry lives and there are at most 64 sources. */
  lemma LostSourceStaysSilent(key: SubKey, e: Entry, s: nat, evs: seq<KeyEvent>, i: nat)
    requires key.L4Book? && LedBy(e, s) && s < 64 && i < |evs|
    requires forall ev <- evs :: ev.Arrive? ==>
               ev.msg.src < 64 && !(ev.msg.ord.Snapshot? && ev.msg.src == s)
    requires forall j :: 0 <= j < |evs| ==> !Drops(Run(key, LoseEntry(key, e, s), evs[..j]), evs[j])
    requires evs[i].Arrive? && evs[i].msg.src == s && evs[i].msg.ord.Block?
    ensures Forwards(key, Run(key, LoseEntry(key, e, s), evs[..i]), evs[i]) == []
  {
    var n := LoseEntry(key, e, s);
    hide KeyStep, Drops, LoseEntry;
    var before := evs[..i];
    forall j | 0 <= j < i
      ensures !Drops(Run(key, n, before[..j]), before[j]) && !Excuses(before[j], SourceBit(s))
    {
      assert before[..j] == evs[..j] && before[j] == evs[j] && evs[j] in evs;
    }
    assert SourceBit(s) in n.arb.needsSnapshot by { LostIsWrittenOff(key, e, s); }
    BitStays(key, n, before, SourceBit(s));
    WrittenOffBlockIsDropped(key, Run(key, n, before), evs[i].msg, evs[i].now);
  }

  lemma LostIsWrittenOff(key: SubKey, e: Entry, s: nat)
    requires key.IsIncremental() && LedBy(e, s)
    ensures SourceBit(s) in LoseEntry(key, e, s).arb.needsSnapshot
  {
  }

  /** With more than 64 sources the shared bit does matter: a snapshot from the source 64 places on
      excuses the lost one, whose very next block then goes out with no snapshot of its own. */
  lemma AliasExcusesALostSource(key: SubKey, e: Entry, s: nat, h: nat, p: Payload, q: Payload, now: nat)
    requires key.L4Book? && LedBy(e, s) && h > 0
    ensures var n := LoseEntry(key, e, s);
            var reset := Arrive(Msg(s + 64, Snapshot(h), p), now);
            var block := Arrive(Msg(s, Block(h + 1), q), now);
            && Forwards(key, n, block) == []
            && Forwards(key, KeyStep(key, n, reset), block) == [block.msg]
  {
    var n := LoseEntry(key, e, s);
    var reset := Msg(s + 64, Snapshot(h), p);
    assert SourceBit(s + 64) == SourceBit(s);
    ArriveBits(key, n, reset, now);
    hide Kept, HeldFor, Bumped, Parking;
  }
}
