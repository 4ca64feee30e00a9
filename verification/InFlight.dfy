/** Sending after the lock is released: a step of an entry and the sends it causes are two steps of the
program, and other work may come between them.

A job is what one step of the entry still has to send to one client. Jobs of different steps may be
carried out in any order, and their sends interleaved. */
module InFlight {
  import opened Wire
  import opened Arbiter
  import opened Entries
  import opened Streams
  import opened L4Check
  import opened L4Stream

  datatype Action =
    | Do(ev: KeyEvent)                  // a step of the entry, under its lock
    | Send(job: nat, accepted: bool)    // the next send of one job, and whether the queue took it

  /** One entry and one client: what is still to be sent, what the queue took, and whether the client is
      to be hung up. */
  datatype Flight = Flight(entry: Entry, jobs: seq<seq<Msg>>, got: seq<Msg>, kill: bool)

  function Launched(e: Entry): Flight {
    Flight(e, [], [], false)
  }

  /** On an incremental channel a send the queue does not take hangs the client up; the rest of that job
      may go on or not, which makes no difference any more. */
  function Acted(key: SubKey, f: Flight, a: Action, c: nat): Flight {
    match a
    case Do(ev) =>
      f.(entry := KeyStep(key, f.entry, ev), jobs := f.jobs + [Offers(key, f.entry, ev, c)])
    case Send(j, accepted) =>
      if j < |f.jobs| && f.jobs[j] != [] then
        var rest := f.(jobs := f.jobs[j := f.jobs[j][1..]]);
        if accepted then rest.(got := f.got + [f.jobs[j][0]]) else rest.(kill := true)
      else f
  }

  function Flown(key: SubKey, e: Entry, acts: seq<Action>, c: nat): Flight {
    if acts == [] then Launched(e)
    else Acted(key, Flown(key, e, acts[..|acts| - 1], c), acts[|acts| - 1], c)
  }

  /** The steps of the entry, in the order they took its lock. */
  function Steps(acts: seq<Action>): seq<KeyEvent> {
    if acts == [] then []
    else
      var a := acts[|acts| - 1];
      Steps(acts[..|acts| - 1]) + if a.Do? then [a.ev] else []
  }

  function Flat(jobs: seq<seq<Msg>>): seq<Msg> {
    if jobs == [] then [] else Flat(jobs[..|jobs| - 1]) + jobs[|jobs| - 1]
  }

  // ---------- Nothing is lost ----------

  lemma {:induction false} FlatUpdate(jobs: seq<seq<Msg>>, j: nat)
    requires j < |jobs| && jobs[j] != []
    ensures multiset(Flat(jobs)) == multiset(Flat(jobs[j := jobs[j][1..]])) + multiset{jobs[j][0]}
  {
    var k := |jobs| - 1;
    var next := jobs[j := jobs[j][1..]];
    HeadApart(jobs[j]);
    if j == k {
      assert next[..k] == jobs[..k];
    } else {
      assert next[..k] == jobs[..k][j := jobs[j][1..]];
      FlatUpdate(jobs[..k], j);
    }
  }

  lemma HeadApart(job: seq<Msg>)
    requires job != []
    ensures multiset(job) == multiset(job[1..]) + multiset{job[0]}
  {
    assert job == [job[0]] + job[1..];
  }

  lemma FlatAppend(jobs: seq<seq<Msg>>, job: seq<Msg>)
    ensures Flat(jobs + [job]) == Flat(jobs) + job
  {
    assert (jobs + [job])[..|jobs|] == jobs;
  }

  lemma RunNext(key: SubKey, e: Entry, evs: seq<KeyEvent>, ev: KeyEvent, c: nat)
    ensures Run(key, e, evs + [ev]) == KeyStep(key, Run(key, e, evs), ev)
    ensures Stream(key, e, evs + [ev], c) == Stream(key, e, evs, c) + Offers(key, Run(key, e, evs), ev, c)
  {
    hide KeyStep, Offers;
    assert (evs + [ev])[..|evs|] == evs;
  }

  lemma {:induction false} FlightEntry(key: SubKey, e: Entry, acts: seq<Action>, c: nat)
    ensures Flown(key, e, acts, c).entry == Run(key, e, Steps(acts))
  {
    hide KeyStep, Offers, Run;
    if acts == [] {
      RunOfNothing(key, e, c);
    } else {
      var k := |acts| - 1;
      FlightEntry(key, e, acts[..k], c);
      if acts[k].Do? {
        RunNext(key, e, Steps(acts[..k]), acts[k].ev, c);
      } else {
        assert Steps(acts) == Steps(acts[..k]);
      }
    }
  }

  lemma RunOfNothing(key: SubKey, e: Entry, c: nat)
    ensures Run(key, e, []) == e && Stream(key, e, [], c) == []
  {
  }

  /** The stream after one more action. */
  lemma ActedStream(key: SubKey, e: Entry, acts: seq<Action>, a: Action, c: nat)
    ensures var (f, s) := (Flown(key, e, acts, c), Stream(key, e, Steps(acts), c));
            && Flown(key, e, acts + [a], c) == Acted(key, f, a, c)
            && Stream(key, e, Steps(acts + [a]), c) == s + if a.Do? then Offers(key, f.entry, a.ev, c) else []
  {
    hide KeyStep, Offers, Run, Acted, Stream;
    assert (acts + [a])[..|acts|] == acts;
    FlightEntry(key, e, acts, c);
    if a.Do? {
      RunNext(key, e, Steps(acts), a.ev, c);
    } else {
      assert Steps(acts + [a]) == Steps(acts);
    }
  }

  ghost predicate Balanced(f: Flight, s: seq<Msg>) {
    f.kill || multiset(f.got) + multiset(Flat(f.jobs)) == multiset(s)
  }

  lemma ActedBalances(key: SubKey, f: Flight, a: Action, c: nat, s: seq<Msg>)
    requires Balanced(f, s)
    ensures Balanced(Acted(key, f, a, c), s + if a.Do? then Offers(key, f.entry, a.ev, c) else [])
  {
    hide KeyStep, Offers, Flat;
    match a
    case Do(ev) =>
      FlatAppend(f.jobs, Offers(key, f.entry, ev, c));
    case Send(j, accepted) =>
      assert s + [] == s;
      if j < |f.jobs| && f.jobs[j] != [] {
        FlatUpdate(f.jobs, j);
      }
  }

  /** However steps and sends interleave, what a client's queue took together with what is still in
      flight to it is its stream, frame for frame, unless the client is to be hung up. */
  lemma {:induction false} NothingLostInFlight(key: SubKey, e: Entry, acts: seq<Action>, c: nat)
    ensures var f := Flown(key, e, acts, c);
            f.kill || multiset(f.got) + multiset(Flat(f.jobs)) == multiset(Stream(key, e, Steps(acts), c))
  {
    hide Acted, Offers, Stream;
    if acts == [] {
      RunOfNothing(key, e, c);
    } else {
      var k := |acts| - 1;
      NothingLostInFlight(key, e, acts[..k], c);
      assert acts == acts[..k] + [acts[k]];
      hide Flown, Steps, Flat;
      ActedStream(key, e, acts[..k], acts[k], c);
      ActedBalances(key, Flown(key, e, acts[..k], c), acts[k], c, Stream(key, e, Steps(acts[..k]), c));
    }
  }

  /** Once nothing is in flight, the queue took exactly the stream's frames, each as often. */
  lemma LandedExactly(key: SubKey, e: Entry, acts: seq<Action>, c: nat)
    requires var f := Flown(key, e, acts, c); !f.kill && forall j :: 0 <= j < |f.jobs| ==> f.jobs[j] == []
    ensures multiset(Flown(key, e, acts, c).got) == multiset(Stream(key, e, Steps(acts), c))
  {
    hide Stream, Flown;
    NothingLostInFlight(key, e, acts, c);
    AllLanded(Flown(key, e, acts, c).jobs);
  }

  lemma {:induction false} AllLanded(jobs: seq<seq<Msg>>)
    requires forall j :: 0 <= j < |jobs| ==> jobs[j] == []
    ensures Flat(jobs) == []
  {
    if jobs != [] {
      AllLanded(jobs[..|jobs| - 1]);
    }
  }

  // ---------- Order ----------

  /** The oldest job with something left is carried on first. */
  predicate Oldest(jobs: seq<seq<Msg>>, j: nat) {
    j < |jobs| && forall i :: 0 <= i < j ==> jobs[i] == []
  }

  /** The action does not send anything younger than something still in flight. */
  predicate NotAhead(jobs: seq<seq<Msg>>, a: Action) {
    a.Send? && a.job < |jobs| && jobs[a.job] != [] ==> Oldest(jobs, a.job)
  }

  /** The sends are carried out in the order their steps took the lock. */
  ghost predicate InLockOrder(key: SubKey, e: Entry, acts: seq<Action>, c: nat) {
    forall i :: 0 <= i < |acts| ==> NotAhead(Flown(key, e, acts[..i], c).jobs, acts[i])
  }

  lemma {:induction false} FlatOldest(jobs: seq<seq<Msg>>, j: nat)
    requires Oldest(jobs, j) && jobs[j] != []
    ensures Flat(jobs) == [jobs[j][0]] + Flat(jobs[j := jobs[j][1..]])
  {
    var k := |jobs| - 1;
    var next := jobs[j := jobs[j][1..]];
    if j == k {
      AllLanded(jobs[..k]);
      assert next[..k] == jobs[..k];
    } else {
      assert next[..k] == jobs[..k][j := jobs[j][1..]];
      FlatOldest(jobs[..k], j);
    }
  }

  ghost predicate Lined(f: Flight, s: seq<Msg>) {
    f.kill || f.got + Flat(f.jobs) == s
  }

  lemma ActedInOrder(key: SubKey, f: Flight, a: Action, c: nat, s: seq<Msg>)
    requires Lined(f, s) && NotAhead(f.jobs, a)
    ensures Lined(Acted(key, f, a, c), s + if a.Do? then Offers(key, f.entry, a.ev, c) else [])
  {
    hide KeyStep, Offers, Flat, Oldest;
    match a
    case Do(ev) =>
      FlatAppend(f.jobs, Offers(key, f.entry, ev, c));
    case Send(j, accepted) =>
      assert s + [] == s;
      if j < |f.jobs| && f.jobs[j] != [] {
        FlatOldest(f.jobs, j);
      }
  }

  /** Then the queue took a prefix of the stream, in order, and what is in flight is the rest of it. */
  lemma {:induction false} LockOrderKeepsOrder(key: SubKey, e: Entry, acts: seq<Action>, c: nat)
    requires InLockOrder(key, e, acts, c)
    ensures var f := Flown(key, e, acts, c);
            f.kill || f.got + Flat(f.jobs) == Stream(key, e, Steps(acts), c)
  {
    hide Acted, Offers, Stream, NotAhead;
    if acts == [] {
      RunOfNothing(key, e, c);
    } else {
      var k := |acts| - 1;
      LockOrderPrefix(key, e, acts, k, c);
      LockOrderKeepsOrder(key, e, acts[..k], c);
      assert acts == acts[..k] + [acts[k]];
      hide Flown, Steps, Flat;
      ActedStream(key, e, acts[..k], acts[k], c);
      ActedInOrder(key, Flown(key, e, acts[..k], c), acts[k], c, Stream(key, e, Steps(acts[..k]), c));
    }
  }

  lemma LockOrderPrefix(key: SubKey, e: Entry, acts: seq<Action>, n: nat, c: nat)
    requires InLockOrder(key, e, acts, c) && n <= |acts|
    ensures InLockOrder(key, e, acts[..n], c)
  {
    hide Flown, NotAhead;
    forall i | 0 <= i < n ensures NotAhead(Flown(key, e, acts[..n][..i], c).jobs, acts[..n][i]) {
      assert acts[..n][..i] == acts[..i];
    }
  }

  // ---------- No other order keeps it ----------

  ghost predicate AllDifferent(s: seq<Msg>) {
    forall i, j :: 0 <= i < j < |s| ==> s[i] != s[j]
  }

  /** The queue took some frame in the place of another. */
  ghost predicate Astray(got: seq<Msg>, s: seq<Msg>) {
    exists n :: 0 <= n < |got| && n < |s| && got[n] != s[n]
  }

  /** Something is in flight before the head of a job that is not the oldest. */
  lemma {:induction false} BehindInFlight(jobs: seq<seq<Msg>>, j: nat) returns (p: nat)
    requires j < |jobs| && jobs[j] != [] && !Oldest(jobs, j)
    ensures 0 < p < |Flat(jobs)| && Flat(jobs)[p] == jobs[j][0]
  {
    var k := |jobs| - 1;
    if j == k {
      p := |Flat(jobs[..k])|;
      var i :| 0 <= i < j && jobs[i] != [];
      SomethingInFlight(jobs[..k], i);
    } else {
      p := BehindInFlight(jobs[..k], j);
    }
  }

  lemma {:induction false} SomethingInFlight(jobs: seq<seq<Msg>>, i: nat)
    requires i < |jobs| && jobs[i] != []
    ensures Flat(jobs) != []
  {
    var k := |jobs| - 1;
    if i < k {
      SomethingInFlight(jobs[..k], i);
    }
  }

  lemma SentAhead(key: SubKey, f: Flight, a: Action, c: nat, s: seq<Msg>)
    requires f.got + Flat(f.jobs) == s && AllDifferent(s)
    requires !NotAhead(f.jobs, a) && !Acted(key, f, a, c).kill
    ensures Astray(Acted(key, f, a, c).got, s)
  {
    hide Flat, Oldest;
    var n := |f.got|;
    var p := BehindInFlight(f.jobs, a.job);
    assert s[n + p] == Flat(f.jobs)[p] == f.jobs[a.job][0];
    assert Acted(key, f, a, c).got[n] == s[n + p] && s[n] != s[n + p];
  }

  lemma StaysAstray(key: SubKey, f: Flight, a: Action, c: nat, s: seq<Msg>, t: seq<Msg>)
    requires Astray(f.got, s)
    ensures Astray(Acted(key, f, a, c).got, s + t)
  {
    hide KeyStep, Offers;
    var n :| 0 <= n < |f.got| && n < |s| && f.got[n] != s[n];
    assert Acted(key, f, a, c).got[n] == f.got[n] && (s + t)[n] == s[n];
  }

  lemma {:induction false} OutOfOrderGoesAstray(key: SubKey, e: Entry, acts: seq<Action>, c: nat)
    requires !InLockOrder(key, e, acts, c) && !Flown(key, e, acts, c).kill
    requires AllDifferent(Stream(key, e, Steps(acts), c))
    ensures Astray(Flown(key, e, acts, c).got, Stream(key, e, Steps(acts), c))
  {
    hide Acted, Offers, Stream, NotAhead, Flown, Steps, Flat, Astray;
    var k := |acts| - 1;
    var a, f, s := acts[k], Flown(key, e, acts[..k], c), Stream(key, e, Steps(acts[..k]), c);
    assert acts == acts[..k] + [a];
    ActedStream(key, e, acts[..k], a, c);
    var offered := if a.Do? then Offers(key, f.entry, a.ev, c) else [];
    PartDifferent(s, offered);
    NeverUnkilled(key, f, a, c);
    if InLockOrder(key, e, acts[..k], c) {
      LockOrderKeepsOrder(key, e, acts[..k], c);
      LastIsAhead(key, e, acts, c);
      SentAhead(key, f, a, c, s);
      SendOffersNothing(f.jobs, a);
      assert s + [] == s;
    } else {
      OutOfOrderGoesAstray(key, e, acts[..k], c);
      StaysAstray(key, f, a, c, s, offered);
    }
  }

  lemma PartDifferent(s: seq<Msg>, t: seq<Msg>)
    requires AllDifferent(s + t)
    ensures AllDifferent(s)
  {
    forall i, j | 0 <= i < j < |s| ensures s[i] != s[j] {
      assert (s + t)[i] == s[i] && (s + t)[j] == s[j];
    }
  }

  lemma NeverUnkilled(key: SubKey, f: Flight, a: Action, c: nat)
    ensures f.kill ==> Acted(key, f, a, c).kill
  {
    hide KeyStep, Offers;
  }

  lemma SendOffersNothing(jobs: seq<seq<Msg>>, a: Action)
    requires !NotAhead(jobs, a)
    ensures !a.Do?
  {
  }

  lemma LastIsAhead(key: SubKey, e: Entry, acts: seq<Action>, c: nat)
    requires acts != [] && !InLockOrder(key, e, acts, c) && InLockOrder(key, e, acts[..|acts| - 1], c)
    ensures !NotAhead(Flown(key, e, acts[..|acts| - 1], c).jobs, acts[|acts| - 1])
  {
    hide Flown, NotAhead;
    var k := |acts| - 1;
    forall i | 0 <= i < k ensures NotAhead(Flown(key, e, acts[..i], c).jobs, acts[i]) {
      assert acts[..k][..i] == acts[..i];
      assert NotAhead(Flown(key, e, acts[..k][..i], c).jobs, acts[..k][i]);
    }
  }

  /** When no frame of the stream equals another and nothing was refused, the queue has a prefix of the
      stream in order, with the rest of it in flight, exactly when nothing was ever sent ahead of
      something older. */
  lemma LockOrderIff(key: SubKey, e: Entry, acts: seq<Action>, c: nat)
    requires !Flown(key, e, acts, c).kill && AllDifferent(Stream(key, e, Steps(acts), c))
    ensures var f := Flown(key, e, acts, c);
            f.got + Flat(f.jobs) == Stream(key, e, Steps(acts), c) <==> InLockOrder(key, e, acts, c)
  {
    hide Stream, Flown, Steps, Flat, InLockOrder;
    if InLockOrder(key, e, acts, c) {
      LockOrderKeepsOrder(key, e, acts, c);
    } else {
      OutOfOrderGoesAstray(key, e, acts, c);
    }
  }

  /** Lock order is needed: two frames forwarded one after the other, sent the other way round, reach the
      client swapped, and the stream checker reports it. */
  lemma SwappedSendsBreakOrder(key: SubKey, e: Entry, c: nat, m: Msg, n: Msg, now: nat)
    requires key.L4Book? && c in e.subscribers && e.arb.needsSnapshot == {}
    requires m.ord.Block? && n.ord.Block? && e.arb.last < m.ord.stamp < n.ord.stamp
    ensures var acts := [Do(Arrive(m, now)), Do(Arrive(n, now)), Send(1, true), Send(0, true)];
            && Stream(key, e, Steps(acts), c) == [m, n]
            && Flown(key, e, acts, c).got == [n, m]
            && Judged(Items([n, m])).violations != []
  {
    var a, b := Arrive(m, now), Arrive(n, now);
    var acts := [Do(a), Do(b), Send(1, true), Send(0, true)];
    BothForwarded(key, e, c, m, n, now);
    FourActs(key, e, a, b, m, n, c);
    StepsBackOnce(n, m);
  }

  lemma BothForwarded(key: SubKey, e: Entry, c: nat, m: Msg, n: Msg, now: nat)
    requires key.L4Book? && c in e.subscribers && e.arb.needsSnapshot == {}
    requires m.ord.Block? && n.ord.Block? && e.arb.last < m.ord.stamp < n.ord.stamp
    ensures Offers(key, e, Arrive(m, now), c) == [m]
    ensures Offers(key, KeyStep(key, e, Arrive(m, now)), Arrive(n, now), c) == [n]
  {
    hide Bumped, Kept, HeldFor;
  }

  lemma BothLaunched(key: SubKey, e: Entry, a: KeyEvent, b: KeyEvent, c: nat)
    ensures var f := Flown(key, e, [Do(a), Do(b)], c);
            && f.jobs == [Offers(key, e, a, c), Offers(key, KeyStep(key, e, a), b, c)] && f.got == []
    ensures Stream(key, e, Steps([Do(a), Do(b)]), c)
         == Offers(key, e, a, c) + Offers(key, KeyStep(key, e, a), b, c)
  {
    hide KeyStep, Offers, Run, Stream, Flown, Steps;
    NothingLaunched(key, e, c);
    RunOfNothing(key, e, c);
    ActedStream(key, e, [], Do(a), c);
    ActedStream(key, e, [Do(a)], Do(b), c);
    assert [] + [Do(a)] == [Do(a)] && [Do(a)] + [Do(b)] == [Do(a), Do(b)];
  }

  lemma NothingLaunched(key: SubKey, e: Entry, c: nat)
    ensures Flown(key, e, [], c) == Launched(e) && Steps([]) == []
  {
  }

  lemma FourActs(key: SubKey, e: Entry, a: KeyEvent, b: KeyEvent, m: Msg, n: Msg, c: nat)
    requires Offers(key, e, a, c) == [m] && Offers(key, KeyStep(key, e, a), b, c) == [n]
    ensures var acts := [Do(a), Do(b), Send(1, true), Send(0, true)];
            Stream(key, e, Steps(acts), c) == [m, n] && Flown(key, e, acts, c).got == [n, m]
  {
    hide KeyStep, Offers, Run, Stream, Flown, Steps;
    var two, three := [Do(a), Do(b)], [Do(a), Do(b), Send(1, true)];
    BothLaunched(key, e, a, b, c);
    ActedStream(key, e, two, Send(1, true), c);
    ActedStream(key, e, three, Send(0, true), c);
    assert two + [Send(1, true)] == three;
    assert three + [Send(0, true)] == [Do(a), Do(b), Send(1, true), Send(0, true)];
  }

  lemma StepsBackOnce(n: Msg, m: Msg)
    requires m.ord.Block? && n.ord.Block? && m.ord.stamp < n.ord.stamp
    ensures Judged(Items([n, m])).violations != []
  {
    hide Judged;
    var items := Items([n, m]);
    assert items[0] == Data(false, Some(n.ord.stamp)) && items[1] == Data(false, Some(m.ord.stamp));
    assert SameSegment(items, 0, 1);
    NoViolationIffOrdered(items);
  }
}
