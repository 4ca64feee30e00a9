/** What each arbitration mode forwards, said without its state.

A run feeds arrivals to one subscription from a fresh entry. For every mode there is a lemma
that says of each arrival, in terms of the arrivals before it alone, whether it is forwarded. */
module Modes {
  import opened Wire
  import opened Arbiter

  datatype Arrival = Arrival(msg: Msg, now: nat) {
    function Src(): nat { msg.src }
    function Stamp(): nat { msg.ord.stamp }
  }

  function Rule(key: SubKey, arb: Arb, a: Arrival): Ruling {
    Arbitrate(key, arb, a.msg.src, a.msg.ord, a.now)
  }

  function After(key: SubKey, run: seq<Arrival>): Arb {
    if run == [] then FRESH
    else Rule(key, After(key, run[..|run| - 1]), run[|run| - 1]).arb
  }

  function RulingAt(key: SubKey, run: seq<Arrival>, i: nat): Ruling
    requires i < |run|
  {
    Rule(key, After(key, run[..i]), run[i])
  }

  predicate ForwardedAt(key: SubKey, run: seq<Arrival>, i: nat)
    requires i < |run|
  {
    RulingAt(key, run, i).deliver
  }

  /** The forwarded arrivals, in order. */
  function Out(key: SubKey, run: seq<Arrival>): seq<Arrival> {
    if run == [] then []
    else
      var k := |run| - 1;
      Out(key, run[..k]) + (if ForwardedAt(key, run, k) then [run[k]] else [])
  }

  // ---------- Vocabulary about the input alone ----------

  /** Nothing before position `i` carried a newer stamp. */
  ghost predicate Newest(run: seq<Arrival>, i: nat)
    requires i < |run|
  {
    forall j :: 0 <= j < i ==> run[j].Stamp() <= run[i].Stamp()
  }

  /** Everything before position `i` carried an older stamp. */
  ghost predicate StrictlyNewest(run: seq<Arrival>, i: nat)
    requires i < |run|
  {
    forall j :: 0 <= j < i ==> run[j].Stamp() < run[i].Stamp()
  }

  /** Position of the first arrival with the given stamp, or the length of the run. */
  ghost function FirstWith(run: seq<Arrival>, v: nat): (r: nat)
    ensures r <= |run|
    ensures r < |run| ==> run[r].Stamp() == v
    ensures forall j :: 0 <= j < r ==> run[j].Stamp() != v
  {
    if run == [] then 0
    else
      var k := |run| - 1;
      var r := FirstWith(run[..k], v);
      if r < k then r else if run[k].Stamp() == v then k else k + 1
  }

  lemma FirstWithPrefix(run: seq<Arrival>, i: nat, v: nat)
    requires i <= |run|
    ensures FirstWith(run[..i], v) == if FirstWith(run, v) < i then FirstWith(run, v) else i
  {
    var a, b := FirstWith(run[..i], v), FirstWith(run, v);
    if b < i {
      assert run[..i][b].Stamp() == v;
    }
  }

  /** How many arrivals with the given stamp a source has supplied. */
  ghost function Count(run: seq<Arrival>, src: nat, h: nat): (r: nat)
    ensures r <= |run|
  {
    if run == [] then 0
    else
      var k := |run| - 1;
      Count(run[..k], src, h) + if run[k].Src() == src && run[k].Stamp() == h then 1 else 0
  }

  lemma {:induction false} CountPositive(run: seq<Arrival>, src: nat, h: nat)
    requires forall j :: 0 <= j < |run| ==> run[j].Stamp() != h
    ensures Count(run, src, h) == 0
  {
    if run != [] {
      CountPositive(run[..|run| - 1], src, h);
    }
  }

  ghost predicate AllPoint(run: seq<Arrival>) { forall a <- run :: a.msg.ord.Point? }
  ghost predicate AllLead(run: seq<Arrival>) { forall a <- run :: a.msg.ord.Lead? }
  ghost predicate AllSticky(run: seq<Arrival>) { forall a <- run :: a.msg.ord.Sticky? }
  ghost predicate AllBlock(run: seq<Arrival>) { forall a <- run :: a.msg.ord.Block? }

  /** The newest stamp of the run, zero when there is none. */
  ghost predicate IsNewestStamp(run: seq<Arrival>, v: nat) {
    && (forall j :: 0 <= j < |run| ==> run[j].Stamp() <= v)
    && (v == 0 || exists j :: 0 <= j < |run| && run[j].Stamp() == v)
  }

  lemma NewestAppend(init: seq<Arrival>, v: nat, a: Arrival)
    requires IsNewestStamp(init, v)
    ensures IsNewestStamp(init + [a], if a.Stamp() > v then a.Stamp() else v)
  {
    var run := init + [a];
    if a.Stamp() > v {
      assert run[|init|] == a;
    } else if v > 0 {
      var j :| 0 <= j < |init| && init[j].Stamp() == v;
      assert run[j] == init[j];
    }
  }

  lemma NewestIff(run: seq<Arrival>, i: nat, v: nat)
    requires i < |run| && IsNewestStamp(run[..i], v)
    ensures Newest(run, i) <==> run[i].Stamp() >= v
  {
    assert forall j :: 0 <= j < i ==> run[..i][j] == run[j];
    if v > 0 {
      var j :| 0 <= j < i && run[..i][j].Stamp() == v;
      assert run[j].Stamp() == v;
    }
  }

  // ---------- The forwarded stream ----------

  ghost predicate NeverFalls(out: seq<Arrival>) {
    forall i, j :: 0 <= i < j < |out| ==> out[i].Stamp() <= out[j].Stamp()
  }

  lemma OutStep(key: SubKey, run: seq<Arrival>)
    requires run != []
    ensures var k := |run| - 1;
            && Out(key, run) == Out(key, run[..k]) + (if ForwardedAt(key, run, k) then [run[k]] else [])
            && After(key, run) == RulingAt(key, run, k).arb
  {
  }

  /** Except where one source carries the whole stream, what goes out never steps back. */
  lemma {:induction false} OutBounded(key: SubKey, run: seq<Arrival>)
    requires forall a <- run :: !a.msg.ord.Sticky?
    ensures NeverFalls(Out(key, run))
    ensures forall j :: 0 <= j < |Out(key, run)| ==> Out(key, run)[j].Stamp() <= After(key, run).last
  {
    if run != [] {
      var k := |run| - 1;
      OutBounded(key, run[..k]);
      assert run[k] in run;
      RulingsAreCoherent(key, After(key, run[..k]), run[k].msg.src, run[k].msg.ord, run[k].now);
    }
  }

  // ---------- Point ----------

  lemma {:induction false} PointState(key: SubKey, run: seq<Arrival>)
    requires AllPoint(run)
    ensures IsNewestStamp(run, After(key, run).last)
  {
    if run != [] {
      var k := |run| - 1;
      PointState(key, run[..k]);
      assert run == run[..k] + [run[k]];
    }
  }

  /** Newest wins: a frame goes out if and only if its stamp exceeds zero and every earlier one. */
  lemma PointForwards(key: SubKey, run: seq<Arrival>, i: nat)
    requires AllPoint(run) && i < |run|
    ensures ForwardedAt(key, run, i) <==> run[i].Stamp() > 0 && StrictlyNewest(run, i)
  {
    PointState(key, run[..i]);
    var last := After(key, run[..i]).last;
    assert run[i] in run;
    if run[i].Stamp() > last {
      assert forall j :: 0 <= j < i ==> run[..i][j] == run[j];
    } else if last > 0 {
      var j :| 0 <= j < i && run[..i][j].Stamp() == last;
      assert run[j].Stamp() == last;
    }
  }

  // ---------- Lead ----------

  ghost predicate LeadInv(run: seq<Arrival>, arb: Arb) {
    && IsNewestStamp(run, arb.last)
    && (arb.last == 0 ==> arb.leader == None)
    && (arb.last > 0 ==>
          var f := FirstWith(run, arb.last);
          f < |run| && arb.leader == Some(run[f].Src()))
  }

  lemma FirstWithAppend(init: seq<Arrival>, a: Arrival, v: nat)
    ensures FirstWith(init + [a], v) ==
              var r := FirstWith(init, v);
              if r < |init| then r else if a.Stamp() == v then |init| else |init| + 1
  {
    assert (init + [a])[..|init|] == init;
  }

  lemma LeadStep(key: SubKey, init: seq<Arrival>, arb: Arb, a: Arrival)
    requires a.msg.ord.Lead? && LeadInv(init, arb)
    ensures LeadInv(init + [a], Rule(key, arb, a).arb)
  {
    NewestAppend(init, arb.last, a);
    var next := Rule(key, arb, a).arb;
    FirstWithAppend(init, a, next.last);
    if a.Stamp() > arb.last {
      assert next.leader == Some(a.Src()) && next.last == a.Stamp();
      assert FirstWith(init, next.last) == |init|;
    } else {
      assert next.leader == arb.leader && next.last == arb.last;
    }
  }

  lemma {:induction false} LeadState(key: SubKey, run: seq<Arrival>)
    requires AllLead(run)
    ensures LeadInv(run, After(key, run))
  {
    if run != [] {
      var k := |run| - 1;
      LeadState(key, run[..k]);
      assert run[k] in run && run == run[..k] + [run[k]];
      LeadStep(key, run[..k], After(key, run[..k]), run[k]);
    }
  }

  /** One source carries a stamp: a frame goes out if and only if its stamp is positive, nothing
      newer came before it, and its source is the one that first showed that stamp. */
  lemma LeadForwards(key: SubKey, run: seq<Arrival>, i: nat)
    requires AllLead(run) && i < |run|
    ensures ForwardedAt(key, run, i) <==>
              && run[i].Stamp() > 0
              && Newest(run, i)
              && run[i].Src() == run[FirstWith(run, run[i].Stamp())].Src()
  {
    var v := run[i].Stamp();
    LeadState(key, run[..i]);
    FirstWithPrefix(run, i, v);
    assert run[i] in run;
    NewestIff(run, i, After(key, run[..i]).last);
  }

  /** The stamps a client sees are exactly the running maxima of the input above zero: a stamp goes
      out if and only if its first arrival was newer than everything before it, whoever sent it. */
  lemma LeadShowsRunningMaxima(key: SubKey, run: seq<Arrival>, v: nat)
    requires AllLead(run)
    ensures (exists i :: 0 <= i < |run| && run[i].Stamp() == v && ForwardedAt(key, run, i))
       <==> v > 0 && FirstWith(run, v) < |run| && StrictlyNewest(run, FirstWith(run, v))
  {
    var f := FirstWith(run, v);
    if i :| 0 <= i < |run| && run[i].Stamp() == v && ForwardedAt(key, run, i) {
      LeadForwards(key, run, i);
      forall j | 0 <= j < f ensures run[j].Stamp() < v {
        assert run[j].Stamp() <= run[i].Stamp();
      }
    }
    if v > 0 && f < |run| && StrictlyNewest(run, f) {
      LeadForwards(key, run, f);
    }
  }

  // ---------- Sticky ----------

  ghost predicate StickyInv(run: seq<Arrival>, arb: Arb) {
    if run == [] then arb.leader == None && arb.last == 0
    else
      && arb.leader == Some(run[0].Src())
      && (forall j :: 0 <= j < |run| && run[j].Src() == run[0].Src() ==> run[j].Stamp() <= arb.last)
      && (exists j :: 0 <= j < |run| && run[j].Src() == run[0].Src() && run[j].Stamp() == arb.last)
  }

  lemma StickyStep(key: SubKey, init: seq<Arrival>, arb: Arb, a: Arrival, run: seq<Arrival>)
    requires a.msg.ord.Sticky? && run == init + [a] && StickyInv(init, arb)
    ensures StickyInv(run, Rule(key, arb, a).arb)
  {
    var k := |init|;
    if k == 0 {
      assert run[0] == a;
    } else {
      assert run[0] == init[0];
      var next := Rule(key, arb, a).arb;
      if next.last == arb.last {
        var j :| 0 <= j < k && init[j].Src() == init[0].Src() && init[j].Stamp() == arb.last;
        assert run[j] == init[j];
      } else {
        assert run[k] == a;
      }
    }
  }

  lemma {:induction false} StickyState(key: SubKey, run: seq<Arrival>)
    requires AllSticky(run)
    ensures StickyInv(run, After(key, run))
  {
    if run != [] {
      var k := |run| - 1;
      StickyState(key, run[..k]);
      assert run[k] in run;
      StickyStep(key, run[..k], After(key, run[..k]), run[k], run);
    }
  }

  /** One source carries the stream: a frame goes out if and only if it comes from the first source
      to speak and is no older than anything that source sent before it. */
  lemma StickyForwards(key: SubKey, run: seq<Arrival>, i: nat)
    requires AllSticky(run) && i < |run|
    ensures ForwardedAt(key, run, i) <==>
              && run[i].Src() == run[0].Src()
              && forall j :: 0 <= j < i && run[j].Src() == run[0].Src() ==> run[j].Stamp() <= run[i].Stamp()
  {
    StickyState(key, run[..i]);
    assert run[i] in run;
    assert forall j :: 0 <= j < i ==> run[..i][j] == run[j];
  }

  // ---------- Block ----------

  /** How far a 32-bit counter takes a source with `n` messages of one block. */
  function Capped(n: nat): nat {
    if n < U32 then n else U32 - 1
  }

  /** No source supplied as many messages of the block as its 32-bit counter can tell apart. */
  ghost predicate NobodyWraps(run: seq<Arrival>, h: nat) {
    forall s :: Count(run, s, h) < U32
  }

  /** The open block: every source's counter is the number of its messages for that block, as far as 32
      bits tell, and as many positions have gone out as the source furthest along has supplied, up to the
      last the counter reaches. */
  ghost predicate BlockInv(run: seq<Arrival>, arb: Arb) {
    && IsNewestStamp(run, arb.last)
    && Tallied(run, arb)
    && arb.sent < U32
    && (arb.sent == 0 || exists s :: Capped(Count(run, s, arb.last)) == arb.sent)
    && (arb.last > 0 ==> arb.sent > 0)
    && arb.needsSnapshot == {}
  }

  ghost predicate Tallied(run: seq<Arrival>, arb: Arb) {
    forall s {:trigger SeenBy(arb.seen, s)} {:trigger Count(run, s, arb.last)} ::
      SeenBy(arb.seen, s) == Count(run, s, arb.last) % U32 && Capped(Count(run, s, arb.last)) <= arb.sent
  }

  lemma SeenByBumped(seen: seq<nat>, id: nat, s: nat)
    ensures SeenBy(Bumped(seen, id), s) ==
              if s == id then (SeenBy(seen, s) + 1) % U32 else SeenBy(seen, s)
  {
  }

  lemma CountAppend(init: seq<Arrival>, a: Arrival, s: nat, h: nat)
    ensures Count(init + [a], s, h) ==
              Count(init, s, h) + if a.Src() == s && a.Stamp() == h then 1 else 0
  {
    assert (init + [a])[..|init|] == init;
  }

  lemma BlockOpens(init: seq<Arrival>, arb: Arb, a: Arrival)
    requires BlockInv(init, arb) && a.Stamp() > arb.last
    ensures BlockInv(init + [a], Opened(arb, a.Src(), a.Stamp(), a.now))
  {
    var h, run := a.Stamp(), init + [a];
    var next := Opened(arb, a.Src(), h, a.now);
    NewestAppend(init, arb.last, a);
    forall s ensures SeenBy(next.seen, s) == Count(run, s, h) % U32 && Capped(Count(run, s, h)) <= 1 {
      CountPositive(init, s, h);
      CountAppend(init, a, s, h);
      SeenByBumped(seq(|arb.seen|, _ => 0), a.Src(), s);
    }
    assert SeenBy(next.seen, a.Src()) == 1;
    CountPositive(init, a.Src(), h);
    CountAppend(init, a, a.Src(), h);
    assert Capped(Count(run, a.Src(), h)) == next.sent;
  }

  lemma RaceRule(arb: Arb, src: nat, now: nat)
    requires SourceBit(src) !in arb.needsSnapshot
    ensures var r, seen := RuleBlock(arb, src, arb.last, now), Bumped(arb.seen, src);
            && r.arb.seen == seen
            && r.arb.last == arb.last
            && r.arb.needsSnapshot == arb.needsSnapshot
            && r.arb.sent == (if SeenBy(seen, src) > arb.sent then SeenBy(seen, src) else arb.sent)
            && (r.deliver <==> SeenBy(seen, src) > arb.sent)
  {
  }

  /** The next count of a source: the counter follows it, and passes the positions gone out exactly when
      the source was furthest along and the counter does not wrap. */
  lemma NextCount(count: nat, sent: nat)
    requires Capped(count) <= sent < U32
    ensures (count % U32 + 1) % U32 == (count + 1) % U32
    ensures (count + 1) % U32 > sent <==> count == sent && count < U32 - 1
    ensures Capped(count + 1) <= (if (count + 1) % U32 > sent then (count + 1) % U32 else sent)
    ensures (count + 1) % U32 > sent ==> (count + 1) % U32 == Capped(count + 1) == sent + 1
  {
  }

  lemma TalliedContinues(init: seq<Arrival>, arb: Arb, a: Arrival, next: Arb)
    requires Tallied(init, arb) && a.Stamp() == arb.last == next.last && arb.sent < U32
    requires next.seen == Bumped(arb.seen, a.Src())
    requires next.sent == if SeenBy(next.seen, a.Src()) > arb.sent then SeenBy(next.seen, a.Src()) else arb.sent
    ensures Tallied(init + [a], next)
  {
    hide Bumped, Count, Capped;
    var run := init + [a];
    var count := Count(init, a.Src(), arb.last);
    assert SeenBy(arb.seen, a.Src()) == count % U32;
    NextCount(count, arb.sent);
    SeenByBumped(arb.seen, a.Src(), a.Src());
    forall s
      ensures SeenBy(next.seen, s) == Count(run, s, arb.last) % U32 && Capped(Count(run, s, arb.last)) <= next.sent
    {
      CountAppend(init, a, s, arb.last);
      SeenByBumped(arb.seen, a.Src(), s);
      assert SeenBy(arb.seen, s) == Count(init, s, arb.last) % U32;
    }
  }

  lemma BlockContinues(init: seq<Arrival>, arb: Arb, a: Arrival, next: Arb)
    requires BlockInv(init, arb) && a.Stamp() == arb.last
    requires next == RuleBlock(arb, a.Src(), arb.last, a.now).arb
    ensures BlockInv(init + [a], next)
  {
    hide Bumped, Capped, Count;
    var count := Count(init, a.Src(), arb.last);
    RaceRule(arb, a.Src(), a.now);
    NewestAppend(init, arb.last, a);
    TalliedContinues(init, arb, a, next);
    assert SeenBy(arb.seen, a.Src()) == count % U32;
    NextCount(count, arb.sent);
    SeenByBumped(arb.seen, a.Src(), a.Src());
    CountAppend(init, a, a.Src(), arb.last);
    if arb.sent != next.sent {
      assert Capped(Count(init + [a], a.Src(), arb.last)) == next.sent;
    } else if arb.sent > 0 {
      var s :| Capped(Count(init, s, arb.last)) == arb.sent;
      CountAppend(init, a, s, arb.last);
      assert SeenBy(next.seen, s) == Count(init + [a], s, arb.last) % U32;
      CappedGrows(Count(init, s, arb.last), Count(init + [a], s, arb.last));
    }
  }

  lemma CappedGrows(a: nat, b: nat)
    requires a <= b
    ensures Capped(a) <= Capped(b)
  {
  }

  lemma BlockIgnores(init: seq<Arrival>, arb: Arb, a: Arrival)
    requires BlockInv(init, arb) && a.Stamp() < arb.last
    ensures BlockInv(init + [a], arb)
  {
    var run := init + [a];
    NewestAppend(init, arb.last, a);
    forall s ensures Count(run, s, arb.last) == Count(init, s, arb.last) {
      CountAppend(init, a, s, arb.last);
    }
    forall s ensures SeenBy(arb.seen, s) == Count(run, s, arb.last) % U32 && Capped(Count(run, s, arb.last)) <= arb.sent
    {
      assert SeenBy(arb.seen, s) == Count(init, s, arb.last) % U32;
    }
    if arb.sent > 0 {
      var s :| Capped(Count(init, s, arb.last)) == arb.sent;
      assert Capped(Count(run, s, arb.last)) == arb.sent;
    }
  }

  lemma {:induction false} BlockState(key: SubKey, run: seq<Arrival>)
    requires AllBlock(run)
    ensures BlockInv(run, After(key, run))
  {
    if run != [] {
      var k := |run| - 1;
      var init, a := run[..k], run[k];
      BlockState(key, init);
      var arb := After(key, init);
      assert a in run && run == init + [a];
      hide BlockInv;
      if a.Stamp() > arb.last {
        OpenMeans(init, arb);
        BlockOpens(init, arb, a);
      } else if a.Stamp() == arb.last {
        BlockContinues(init, arb, a, After(key, run));
      } else {
        OpenMeans(init, arb);
        BlockIgnores(init, arb, a);
      }
    }
  }

  lemma OpenMeans(run: seq<Arrival>, arb: Arb)
    requires BlockInv(run, arb)
    ensures arb.needsSnapshot == {}
  {
  }

  /** No source had supplied more messages of `h` than `s`. */
  ghost predicate Furthest(run: seq<Arrival>, s: nat, h: nat) {
    forall t :: Count(run, t, h) <= Count(run, s, h)
  }

  /** A source whose counter has not come to its end is furthest along exactly when it has supplied all that
      has gone out. */
  lemma FurthestIff(run: seq<Arrival>, arb: Arb, s: nat)
    requires BlockInv(run, arb)
    ensures Furthest(run, s, arb.last) && Count(run, s, arb.last) < U32 - 1
       <==> Count(run, s, arb.last) == arb.sent && arb.sent < U32 - 1
  {
    hide Count;
    assert SeenBy(arb.seen, s) == Count(run, s, arb.last) % U32;
    if arb.sent > 0 {
      var t :| Capped(Count(run, t, arb.last)) == arb.sent;
    }
    if Count(run, s, arb.last) == arb.sent < U32 - 1 {
      forall t ensures Count(run, t, arb.last) <= arb.sent {
        assert SeenBy(arb.seen, t) == Count(run, t, arb.last) % U32;
      }
    }
  }

  lemma BlockForwardsFrom(key: SubKey, init: seq<Arrival>, arb: Arb, a: Arrival)
    requires a.msg.ord.Block? && BlockInv(init, arb)
    ensures Rule(key, arb, a).deliver <==>
              && a.Stamp() >= arb.last && Furthest(init, a.Src(), a.Stamp())
              && Count(init, a.Src(), a.Stamp()) < U32 - 1
  {
    var s, h := a.Src(), a.Stamp();
    if h > arb.last {
      forall t ensures Count(init, t, h) == 0 {
        CountPositive(init, t, h);
      }
    } else if h == arb.last {
      RaceRule(arb, s, a.now);
      SeenByBumped(arb.seen, s, s);
      FurthestIff(init, arb, s);
      assert SeenBy(arb.seen, s) == Count(init, s, h) % U32;
      NextCount(Count(init, s, h), arb.sent);
    }
  }

  /** Positions inside a block are raced one by one: a frame goes out if and only if nothing newer came
      before it, it takes its source past every position any source had reached, and its position is not
      one that the 32-bit counter cannot reach. */
  lemma BlockForwards(key: SubKey, run: seq<Arrival>, i: nat)
    requires AllBlock(run) && i < |run|
    ensures var (s, h) := (run[i].Src(), run[i].Stamp());
            ForwardedAt(key, run, i) <==>
              Newest(run, i) && Furthest(run[..i], s, h) && Count(run[..i], s, h) < U32 - 1
  {
    var init, a := run[..i], run[i];
    BlockState(key, init);
    var arb := After(key, init);
    assert a in run;
    BlockForwardsFrom(key, init, arb, a);
    NewestIff(run, i, arb.last);
  }

  /** The 32-bit counter is a real limit: once a source has supplied 2^32 - 1 messages of the open block,
      no message of that block goes out any more, from whatever source. */
  lemma WrappedCounterDropsAPosition(key: SubKey, run: seq<Arrival>, a: Arrival, s: nat)
    requires AllBlock(run) && a.msg.ord.Block?
    requires a.Stamp() == After(key, run).last
    requires Count(run, s, a.Stamp()) >= U32 - 1
    ensures !Rule(key, After(key, run), a).deliver
  {
    BlockState(key, run);
    BlockForwardsFrom(key, run, After(key, run), a);
    assert Furthest(run, a.Src(), a.Stamp()) ==> Count(run, s, a.Stamp()) <= Count(run, a.Src(), a.Stamp());
  }

  // ---------- Racing refines one ideal stream ----------

  function OfHeight(out: seq<Arrival>, h: nat): seq<Payload> {
    if out == [] then []
    else
      var k := |out| - 1;
      OfHeight(out[..k], h) + (if out[k].Stamp() == h then [out[k].msg.payload] else [])
  }

  /** Every source sends, for each block, an in-order prefix of that block's messages. */
  ghost predicate Scripted(run: seq<Arrival>, messages: nat -> seq<Payload>) {
    forall i :: 0 <= i < |run| ==>
      var (s, h) := (run[i].Src(), run[i].Stamp());
      && Count(run[..i], s, h) < |messages(h)|
      && run[i].msg.payload == messages(h)[Count(run[..i], s, h)]
  }

  lemma {:induction false} OfHeightEmpty(out: seq<Arrival>, h: nat)
    requires forall j :: 0 <= j < |out| ==> out[j].Stamp() != h
    ensures OfHeight(out, h) == []
  {
    if out != [] {
      OfHeightEmpty(out[..|out| - 1], h);
    }
  }

  lemma OfHeightAppend(out: seq<Arrival>, a: Arrival, h: nat)
    ensures OfHeight(out + [a], h) ==
              OfHeight(out, h) + if a.Stamp() == h then [a.msg.payload] else []
  {
    assert (out + [a])[..|out|] == out;
  }

  ghost predicate OneStream(out: seq<Arrival>, messages: nat -> seq<Payload>) {
    forall h :: OfHeight(out, h) <= messages(h)
  }

  /** As many messages of `h` have gone out as the source furthest along has supplied. */
  ghost predicate AsLongAsTheFurthest(run: seq<Arrival>, out: seq<Arrival>, h: nat) {
    var k := |OfHeight(out, h)|;
    && (forall s :: Count(run, s, h) <= k)
    && (k > 0 ==> exists s :: Count(run, s, h) == k)
  }

  lemma RaceAppend(
      out: seq<Arrival>, a: Arrival, messages: nat -> seq<Payload>)
    requires OneStream(out, messages)
    requires var n := |OfHeight(out, a.Stamp())|;
             n < |messages(a.Stamp())| && a.msg.payload == messages(a.Stamp())[n]
    ensures OneStream(out + [a], messages)
  {
    forall g ensures OfHeight(out + [a], g) <= messages(g) {
      OfHeightAppend(out, a, g);
    }
  }

  lemma BlockAccepts(key: SubKey, init: seq<Arrival>, arb: Arb, a: Arrival)
    requires a.msg.ord.Block? && BlockInv(init, arb)
    requires Rule(key, arb, a).deliver
    ensures var next := Rule(key, arb, a).arb;
            && next.last == a.Stamp() >= arb.last
            && next.sent == Count(init, a.Src(), a.Stamp()) + 1
            && (a.Stamp() == arb.last ==> Count(init, a.Src(), a.Stamp()) == arb.sent)
  {
    BlockForwardsFrom(key, init, arb, a);
    if a.Stamp() > arb.last {
      CountPositive(init, a.Src(), a.Stamp());
    } else {
      FurthestIff(init, arb, a.Src());
      RaceRule(arb, a.Src(), a.now);
      assert SeenBy(arb.seen, a.Src()) == Count(init, a.Src(), arb.last) % U32;
      SeenByBumped(arb.seen, a.Src(), a.Src());
      NextCount(Count(init, a.Src(), arb.last), arb.sent);
    }
  }

  /** How many messages of the newcomer's height are out already, when the newcomer goes out. */
  lemma RacePosition(key: SubKey, run: seq<Arrival>)
    requires run != [] && AllBlock(run)
    requires ForwardedAt(key, run, |run| - 1)
    requires var init := run[..|run| - 1];
             |OfHeight(Out(key, init), After(key, init).last)| == After(key, init).sent
    ensures var init, a := run[..|run| - 1], run[|run| - 1];
            && |OfHeight(Out(key, init), a.Stamp())| == Count(init, a.Src(), a.Stamp())
            && After(key, run).last == a.Stamp()
            && After(key, run).sent == Count(init, a.Src(), a.Stamp()) + 1
  {
    var k := |run| - 1;
    var init, a := run[..k], run[k];
    BlockState(key, init);
    assert a in run;
    BlockAccepts(key, init, After(key, init), a);
    if a.Stamp() > After(key, init).last {
      OutBounded(key, init);
      OfHeightEmpty(Out(key, init), a.Stamp());
      CountPositive(init, a.Src(), a.Stamp());
    }
  }

  lemma QuietStep(key: SubKey, run: seq<Arrival>)
    requires run != [] && AllBlock(run) && !ForwardedAt(key, run, |run| - 1)
    ensures After(key, run).last == After(key, run[..|run| - 1]).last
    ensures After(key, run).sent == After(key, run[..|run| - 1]).sent
  {
    assert run[|run| - 1] in run;
  }

  lemma RaceStep(key: SubKey, run: seq<Arrival>, messages: nat -> seq<Payload>)
    requires run != [] && AllBlock(run) && Scripted(run, messages)
    requires var init := run[..|run| - 1];
             && OneStream(Out(key, init), messages)
             && |OfHeight(Out(key, init), After(key, init).last)| == After(key, init).sent
    ensures OneStream(Out(key, run), messages)
    ensures |OfHeight(Out(key, run), After(key, run).last)| == After(key, run).sent
  {
    var k := |run| - 1;
    var before := Out(key, run[..k]);
    OutStep(key, run);
    if ForwardedAt(key, run, k) {
      RacePosition(key, run);
      RaceAppend(before, run[k], messages);
      OfHeightAppend(before, run[k], run[k].Stamp());
    } else {
      QuietStep(key, run);
      assert Out(key, run) == before;
    }
  }

  lemma {:induction false} Race(key: SubKey, run: seq<Arrival>, messages: nat -> seq<Payload>)
    requires AllBlock(run) && Scripted(run, messages)
    ensures OneStream(Out(key, run), messages)
    ensures |OfHeight(Out(key, run), After(key, run).last)| == After(key, run).sent
  {
    if run != [] {
      var k := |run| - 1;
      var init := run[..k];
      assert Scripted(init, messages) by {
        forall i | 0 <= i < k ensures init[..i] == run[..i] && init[i] == run[i] {
        }
      }
      Race(key, init, messages);
      RaceStep(key, run, messages);
    }
  }

  /** The length of the open block in the output, as far as the counter goes. */
  lemma OpenLength(key: SubKey, run: seq<Arrival>, out: seq<Arrival>)
    requires BlockInv(run, After(key, run))
    requires |OfHeight(out, After(key, run).last)| == After(key, run).sent
    ensures var h := After(key, run).last;
            && (AsLongAsTheFurthest(run, out, h) <==> NobodyWraps(run, h))
            && (!NobodyWraps(run, h) ==> |OfHeight(out, h)| == U32 - 1)
  {
    hide Count, OfHeight, After;
    var arb := After(key, run);
    forall s ensures Capped(Count(run, s, arb.last)) <= arb.sent {
      assert SeenBy(arb.seen, s) == Count(run, s, arb.last) % U32;
    }
    if NobodyWraps(run, arb.last) {
      forall s ensures Count(run, s, arb.last) <= arb.sent {
        assert Capped(Count(run, s, arb.last)) == Count(run, s, arb.last);
      }
      if arb.sent > 0 {
        var s :| Capped(Count(run, s, arb.last)) == arb.sent;
        assert Count(run, s, arb.last) == arb.sent;
      }
    } else {
      var s :| Count(run, s, arb.last) >= U32;
      assert Capped(Count(run, s, arb.last)) == U32 - 1;
    }
  }

  /** With every source replaying the same messages of each block, however the sources interleave
      and wherever each of them stops, what goes out is one ideal stream: heights never go back,
      and of each height exactly a prefix of its messages, every position once and in order. At
      every moment the prefix of the open block is as long as the longest any source has supplied,
      exactly as long as no source has supplied 2^32 messages of it; from then on it is one short
      of that. */
  lemma BlockRacingRefinesOneStream(key: SubKey, run: seq<Arrival>, messages: nat -> seq<Payload>)
    requires AllBlock(run) && Scripted(run, messages)
    ensures NeverFalls(Out(key, run))
    ensures OneStream(Out(key, run), messages)
    ensures IsNewestStamp(run, After(key, run).last)
    ensures AsLongAsTheFurthest(run, Out(key, run), After(key, run).last) <==> NobodyWraps(run, After(key, run).last)
    ensures !NobodyWraps(run, After(key, run).last) ==> |OfHeight(Out(key, run), After(key, run).last)| == U32 - 1
  {
    OutBounded(key, run);
    Race(key, run, messages);
    BlockState(key, run);
    OpenLength(key, run, Out(key, run));
  }

  lemma ClosedBlockStep(key: SubKey, run: seq<Arrival>, h: nat)
    requires run != [] && AllBlock(run) && h < After(key, run[..|run| - 1]).last
    ensures h < After(key, run).last
    ensures OfHeight(Out(key, run), h) == OfHeight(Out(key, run[..|run| - 1]), h)
  {
    var k := |run| - 1;
    var a, arb := run[k], After(key, run[..k]);
    assert a in run;
    OutStep(key, run);
    RulingsAreCoherent(key, arb, a.msg.src, a.msg.ord, a.now);
    OfHeightAppend(Out(key, run[..k]), a, h);
    if !ForwardedAt(key, run, k) {
      assert Out(key, run) == Out(key, run[..k]);
    }
  }

  /** A block is settled once a newer one opens: later arrivals add nothing to it. */
  lemma {:induction false} ClosedBlockIsFinal(key: SubKey, run: seq<Arrival>, i: nat, h: nat)
    requires AllBlock(run) && i <= |run|
    requires h < After(key, run[..i]).last
    ensures h < After(key, run).last
    ensures OfHeight(Out(key, run), h) == OfHeight(Out(key, run[..i]), h)
    decreases |run|
  {
    if i == |run| {
      assert run[..i] == run;
    } else {
      var k := |run| - 1;
      assert run[..k][..i] == run[..i];
      ClosedBlockIsFinal(key, run[..k], i, h);
      ClosedBlockStep(key, run, h);
    }
  }
}
