/** The arbitration rule: what one frame does to the ordering state of its subscription. */
module Arbiter {
  import opened Wire

  /** The ordering part of a subscription entry. The two bitmasks are kept as the sets of their bit
      positions. */
  datatype Arb = Arb(
    last: nat,
    seenAt: nat,
    leader: Option<nat>,
    sampled: set<nat>,
    sent: nat,
    seen: seq<nat>,
    needsSnapshot: set<nat>)

  const FRESH := Arb(0, 0, None, {}, 0, [], {})

  /** What arbitration decides about one frame. `late` carries the delay charged to its source. */
  datatype Ruling = Ruling(arb: Arb, deliver: bool, win: bool, late: Option<nat>, stale: bool)

  /** Position of a source's bit in the per-entry masks. */
  function SourceBit(id: nat): nat {
    id % 64
  }

  const U32: nat := 0x1_0000_0000

  function Resized(seen: seq<nat>, id: nat): (r: seq<nat>)
    ensures |r| == if |seen| <= id then id + 1 else |seen|
  {
    if |seen| <= id then seen + seq(id + 1 - |seen|, _ => 0) else seen
  }

  /** One more message of the current block from `id`; the per-source counters are 32 bits wide. */
  function Bumped(seen: seq<nat>, id: nat): seq<nat> {
    var s := Resized(seen, id);
    s[id := (s[id] + 1) % U32]
  }

  function SeenBy(seen: seq<nat>, id: nat): nat {
    if id < |seen| then seen[id] else 0
  }

  function OpenBlock(arb: Arb, id: nat): Arb {
    arb.(sent := 1, seen := Bumped(seq(|arb.seen|, _ => 0), id))
  }

  function Elapsed(arb: Arb, now: nat): nat {
    if now >= arb.seenAt then now - arb.seenAt else 0
  }

  function Win(arb: Arb): Ruling { Ruling(arb, true, true, None, false) }
  function Pass(arb: Arb): Ruling { Ruling(arb, true, false, None, false) }
  function Late(arb: Arb, now: nat): Ruling { Ruling(arb, false, false, Some(Elapsed(arb, now)), false) }
  function Quiet(arb: Arb): Ruling { Ruling(arb, false, false, None, false) }
  function Stale(arb: Arb): Ruling { Ruling(arb, false, false, None, true) }

  /** The start of a block or of a snapshot's timeline, with `src` in the lead. */
  function Opened(arb: Arb, src: nat, h: nat, now: nat): Arb {
    OpenBlock(arb.(last := h, seenAt := now, leader := Some(src), sampled := {SourceBit(src)}), src)
  }

  function RulePoint(arb: Arb, v: nat, now: nat): Ruling {
    if v > arb.last then Win(arb.(last := v, seenAt := now))
    else if v == arb.last then Late(arb, now)
    else Stale(arb)
  }

  function RuleLead(arb: Arb, src: nat, v: nat, now: nat): Ruling {
    if v > arb.last then Win(arb.(last := v, seenAt := now, leader := Some(src)))
    else if v == arb.last then
      if arb.leader == Some(src) then Pass(arb) else Late(arb, now)
    else Stale(arb)
  }

  function RuleSticky(arb: Arb, src: nat, v: nat, now: nat): Ruling {
    match arb.leader
    case None => Win(arb.(last := v, seenAt := now, leader := Some(src)))
    case Some(id) =>
      if id != src then Late(arb, now)
      else if v >= arb.last then
        var next := arb.(last := v, seenAt := now);
        if v > arb.last then Win(next) else Pass(next)
      else Stale(arb)
  }

  function RuleSnapshot(single: bool, arb: Arb, src: nat, h: nat, now: nat): Ruling {
    var cleared := arb.(needsSnapshot := arb.needsSnapshot - {SourceBit(src)});
    var ours := !single || arb.leader.None? || arb.leader == Some(src);
    if ours && h > arb.last then Win(Opened(cleared, src, h, now)) else Stale(cleared)
  }

  function RuleBlock(arb: Arb, src: nat, h: nat, now: nat): Ruling {
    if SourceBit(src) in arb.needsSnapshot then Stale(arb)
    else if h > arb.last then Win(Opened(arb, src, h, now))
    else if h == arb.last then
      var bumped := arb.(seen := Bumped(arb.seen, src));
      var seen := bumped.seen[src];
      if seen > arb.sent then Pass(bumped.(sent := seen, leader := Some(src)))
      else if SourceBit(src) in arb.sampled then Quiet(bumped)
      else Late(bumped.(sampled := arb.sampled + {SourceBit(src)}), now)
    else Stale(arb)
  }

  function Arbitrate(key: SubKey, arb: Arb, src: nat, ord: Seq, now: nat): Ruling {
    match ord
    case Point(v) => RulePoint(arb, v, now)
    case Lead(v) => RuleLead(arb, src, v, now)
    case Sticky(v) => RuleSticky(arb, src, v, now)
    case Snapshot(h) => RuleSnapshot(key.SingleSourced(), arb, src, h, now)
    case Block(h) => RuleBlock(arb, src, h, now)
  }

  /** No ruling both forwards a frame and counts it against its source, and only a forwarded frame
      moves the ordering value, to its own stamp. */
  lemma RulingsAreCoherent(key: SubKey, arb: Arb, src: nat, ord: Seq, now: nat)
    ensures var r := Arbitrate(key, arb, src, ord, now);
            && (r.win ==> r.deliver)
            && (r.deliver ==> r.late.None? && !r.stale && r.arb.last == ord.stamp)
            && (!r.deliver ==> r.arb.last == arb.last && r.arb.leader == arb.leader)
            && (r.deliver && !ord.Sticky? ==> ord.stamp >= arb.last)
            && (r.deliver && !ord.Point? && ord.stamp > arb.last ==> r.arb.leader == Some(src))
  {
  }
}
