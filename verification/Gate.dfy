/** Refusing frames by their block time, before arbitration: what a frame stamped ahead of the clock could
otherwise do, and how long anything can hold a subscription back. */
module Gate {
  import opened Wire
  import opened Arbiter
  import opened Modes

  /** How far ahead of the clock a block time may be, in milliseconds. */
  const FUTURE_LIMIT_MS: nat := 5_000

  predicate FromFuture(time: Option<nat>, clock: nat) {
    time.Some? && time.value > clock && time.value - clock > FUTURE_LIMIT_MS
  }

  predicate TooOld(time: Option<nat>, clock: nat, maxAge: Option<nat>) {
    maxAge.Some? && time.Some? && clock > time.value && clock - time.value > maxAge.value
  }

  /** A frame without a block time passes. */
  predicate Admits(time: Option<nat>, clock: nat, maxAge: Option<nat>) {
    !FromFuture(time, clock) && !TooOld(time, clock, maxAge)
  }

  /** An arrival with the block time in its text and the wall clock, both in milliseconds. */
  datatype Timed = Timed(arrival: Arrival, time: Option<nat>, clock: nat)

  function Admitted(run: seq<Timed>, maxAge: Option<nat>): seq<Arrival> {
    if run == [] then []
    else
      var k := |run| - 1;
      Admitted(run[..k], maxAge) + if Admits(run[k].time, run[k].clock, maxAge) then [run[k].arrival] else []
  }

  /** The frames are ordered by their block time, as on `bbo` and `l2Book`. */
  ghost predicate OrderedByTime(run: seq<Timed>) {
    forall i :: 0 <= i < |run| ==> run[i].time == Some(run[i].arrival.Stamp())
  }

  /** All of it happened by the given time. */
  ghost predicate By(run: seq<Timed>, clock: nat) {
    forall i :: 0 <= i < |run| ==> run[i].clock <= clock
  }

  lemma RuleBound(key: SubKey, arb: Arb, a: Arrival, bound: nat)
    requires arb.last <= bound && a.Stamp() <= bound
    ensures Rule(key, arb, a).arb.last <= bound
  {
    hide Bumped;
  }

  lemma AfterNext(key: SubKey, run: seq<Arrival>, a: Arrival)
    ensures After(key, run + [a]) == Rule(key, After(key, run), a).arb
  {
    hide Rule;
    assert (run + [a])[..|run|] == run;
  }

  /** Whatever the sources send, no subscription is ever held back further than the limit ahead of the
      clock. */
  lemma {:induction false} HighWaterStaysNearTheClock(key: SubKey, run: seq<Timed>, maxAge: Option<nat>, clock: nat)
    requires OrderedByTime(run) && By(run, clock)
    ensures After(key, Admitted(run, maxAge)).last <= clock + FUTURE_LIMIT_MS
  {
    hide Rule, After;
    if run == [] {
      NothingYet(key);
    } else {
      var k := |run| - 1;
      var before := Admitted(run[..k], maxAge);
      HighWaterStaysNearTheClock(key, run[..k], maxAge, clock);
      if Admits(run[k].time, run[k].clock, maxAge) {
        AfterNext(key, before, run[k].arrival);
        RuleBound(key, After(key, before), run[k].arrival, clock + FUTURE_LIMIT_MS);
      } else {
        assert Admitted(run, maxAge) == before;
      }
    }
  }

  lemma NothingYet(key: SubKey)
    ensures After(key, []) == FRESH
  {
  }

  /** So a `bbo` frame stamped with its own clock goes out as soon as that clock is past the limit from
      the last arrival, whatever came before it: nothing silences the subscription for longer. */
  lemma HonestFrameGetsThrough(key: SubKey, run: seq<Timed>, maxAge: Option<nat>, next: Timed, clock: nat)
    requires OrderedByTime(run) && By(run, clock)
    requires next.time == Some(next.clock) && next.arrival.Stamp() == next.clock
    requires next.clock > clock + FUTURE_LIMIT_MS && next.arrival.msg.ord.Lead?
    ensures Admits(next.time, next.clock, maxAge)
    ensures Rule(key, After(key, Admitted(run, maxAge)), next.arrival).deliver
  {
    HighWaterStaysNearTheClock(key, run, maxAge, clock);
    hide After, Admitted;
  }

  /** Without the gate one frame stamped far ahead does silence it: everything stamped below is dropped,
      from every source, until the clock gets there. */
  lemma UngatedFutureFrameSilences(key: SubKey, future: Arrival, honest: Arrival)
    requires future.msg.ord.Lead? && honest.msg.ord.Lead? && honest.Stamp() < future.Stamp()
    ensures !Rule(key, After(key, [future]), honest).deliver
  {
    assert [future][..0] == [];
  }

  /** The block time is absent, or no more than five seconds ahead of the clock and, when a limit is set,
      no further behind it than that. */
  predicate InTime(t: Timed, maxAge: Option<nat>) {
    t.time.None? || (t.time.value <= t.clock + 5_000 && (maxAge.None? || t.clock <= t.time.value + maxAge.value))
  }

  /** The arrivals in time, in order. */
  function OnTime(run: seq<Timed>, maxAge: Option<nat>): seq<Arrival> {
    if run == [] then []
    else
      var k := |run| - 1;
      if InTime(run[k], maxAge) then OnTime(run[..k], maxAge) + [run[k].arrival] else OnTime(run[..k], maxAge)
  }

  /** The gate lets through what is in time, all of it, in order, and nothing else. */
  lemma {:induction false} AdmittedExactly(run: seq<Timed>, maxAge: Option<nat>)
    ensures Admitted(run, maxAge) == OnTime(run, maxAge)
    ensures forall a :: a in Admitted(run, maxAge) <==>
              exists i :: 0 <= i < |run| && run[i].arrival == a && InTime(run[i], maxAge)
  {
    if run != [] {
      var k := |run| - 1;
      AdmittedExactly(run[..k], maxAge);
      forall a | exists i :: 0 <= i < |run| && run[i].arrival == a && InTime(run[i], maxAge)
        ensures a in Admitted(run, maxAge)
      {
        var i :| 0 <= i < |run| && run[i].arrival == a && InTime(run[i], maxAge);
        if i < k {
          assert run[..k][i].arrival == a;
        }
      }
    }
  }

  /** With a freshness limit, no frame older than it is ever arbitrated, with or without history. */
  lemma {:induction false} AdmittedFramesAreRecent(run: seq<Timed>, age: nat)
    requires OrderedByTime(run)
    ensures forall a <- Admitted(run, Some(age)) ::
              exists i :: 0 <= i < |run| && run[i].arrival == a && run[i].clock <= a.Stamp() + age
  {
    if run != [] {
      var k := |run| - 1;
      AdmittedFramesAreRecent(run[..k], age);
      forall a | a in Admitted(run, Some(age))
        ensures exists i :: 0 <= i < |run| && run[i].arrival == a && run[i].clock <= a.Stamp() + age
      {
        if a in Admitted(run[..k], Some(age)) {
          var i :| 0 <= i < k && run[..k][i].arrival == a && run[..k][i].clock <= a.Stamp() + age;
          assert run[i].arrival == a;
        } else {
          assert run[k].arrival == a;
        }
      }
    }
  }
}
