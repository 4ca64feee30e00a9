/** Every `l4Book` stream the arbiter produces passes the stream checker. */
module L4Stream {
  import opened Wire
  import opened Arbiter
  import opened Entries
  import opened Streams
  import opened Epochs
  import opened LateJoin
  import opened L4Check

  /** A stream as the checker reads it. */
  function Items(s: seq<Msg>): seq<Item> {
    seq(|s|, i requires 0 <= i < |s| => Data(s[i].ord.Snapshot?, Some(s[i].ord.stamp)))
  }

  /** No violation so far, and the next frame is free to come at `top` or above. */
  ghost predicate Clean(s: seq<Msg>, top: nat) {
    var v := Judged(Items(s));
    v.violations == [] && (v.last.None? || v.last.value <= top)
  }

  ghost predicate NoViolation(s: seq<Msg>) {
    Judged(Items(s)).violations == []
  }

  ghost predicate Opens(s: seq<Msg>) {
    s == [] || s[0].ord.Snapshot?
  }

  lemma OpensMeansSnapshotted(s: seq<Msg>)
    requires Opens(s) && s != []
    ensures Judged(Items(s)).snapshotHeight.Some?
  {
    assert HasHeight(Items(s)[0]) && Items(s)[0].snapshot;
    CheckState(Items(s));
    hide Judged;
  }

  lemma JudgeNext(s: seq<Msg>, m: Msg)
    ensures Judged(Items(s + [m])) == Judge(Judged(Items(s)), Data(m.ord.Snapshot?, Some(m.ord.stamp)))
  {
    assert Items(s + [m])[..|s|] == Items(s);
  }

  /** A frame at or above everything in its segment, or one that starts a new segment, is clean. */
  lemma CleanNext(s: seq<Msg>, m: Msg, top: nat)
    requires if m.ord.Snapshot? && Opens(s) then NoViolation(s) else Clean(s, top) && m.ord.stamp >= top
    ensures Clean(s + [m], m.ord.stamp)
  {
    hide Judged, Items, OpenHeights, SegmentsOrdered, Snapshotted, Opens;
    JudgeNext(s, m);
    CheckState(Items(s));
    NothingJudged();
    if m.ord.Snapshot? && Opens(s) && s != [] {
      OpensMeansSnapshotted(s);
    }
  }

  lemma NothingJudged()
    ensures Judged(Items([])) == START
  {
  }

  /** No frame comes directly after a higher one, except a snapshot, which starts over. */
  ghost predicate Rising(t: seq<Msg>) {
    forall i :: 0 < i < |t| ==> t[i].ord.Snapshot? || t[i - 1].ord.stamp <= t[i].ord.stamp
  }

  function Top(t: seq<Msg>, lo: nat): nat {
    if t == [] then lo else t[|t| - 1].ord.stamp
  }

  lemma {:induction false} CleanRising(s: seq<Msg>, t: seq<Msg>, lo: nat)
    requires Clean(s, lo) && Opens(s) && s != [] && Rising(t)
    requires t != [] ==> t[0].ord.stamp >= lo
    ensures Clean(s + t, Top(t, lo)) && Opens(s + t)
  {
    hide Clean, NoViolation;
    if t == [] {
      assert s + t == s;
    } else {
      var k := |t| - 1;
      assert s + t == (s + t[..k]) + [t[k]];
      CleanRising(s, t[..k], lo);
      CleanWeaken(s + t[..k], Top(t[..k], lo), Top(t[..k], lo));
      if !t[k].ord.Snapshot? {
        CleanWeaken(s + t[..k], Top(t[..k], lo), t[k].ord.stamp);
      }
      CleanNext(s + t[..k], t[k], t[k].ord.stamp);
    }
  }

  lemma CleanWeaken(s: seq<Msg>, lo: nat, hi: nat)
    requires Clean(s, lo) && lo <= hi
    ensures Clean(s, hi) && NoViolation(s)
  {
  }

  function Max(a: nat, b: nat): nat {
    if a >= b then a else b
  }

  // ---------- The conditions ----------

  /** What a waiting client would be sent behind the snapshot. */
  function Behind(e: Entry, c: nat, snapshot: Msg): seq<Msg>
    requires IsParked(e.pending, c)
  {
    Backlog(HeldBehind(e, c), snapshot.ord.stamp, false, snapshot.src)
  }

  /** What is held behind the snapshot rises, and ends no higher than the entry stands when the snapshot
      arrives. */
  ghost predicate SafeBacklog(e: Entry, c: nat, snapshot: Msg)
    requires IsParked(e.pending, c)
  {
    var b := Behind(e, c, snapshot);
    Rising(b) && (b != [] ==> Top(b, 0) <= e.arb.last)
  }

  /** And neither is the snapshot itself higher than the entry stands. */
  ghost predicate SafeAnswer(e: Entry, c: nat, snapshot: Msg)
    requires IsParked(e.pending, c)
  {
    SafeBacklog(e, c, snapshot) && snapshot.ord.stamp <= e.arb.last
  }

  predicate Answers(e: Entry, ev: KeyEvent, c: nat) {
    ev.Answer? && ev.client == c && IsParked(e.pending, c)
  }

  /** The client, sent `s` so far, stays, and joins once; when it is answered, what is held for it is safe
      to send. */
  ghost predicate Mild(e: Entry, ev: KeyEvent, c: nat, s: seq<Msg>) {
    && ev != Leave(c)
    && (ev == Join(c) ==> s == [])
    && (Answers(e, ev, c) ==> SafeBacklog(e, c, ev.snapshot))
  }

  /** The same, and the answer as a whole is safe. */
  ghost predicate Calm(e: Entry, ev: KeyEvent, c: nat, s: seq<Msg>) {
    Mild(e, ev, c, s) && (Answers(e, ev, c) ==> SafeAnswer(e, c, ev.snapshot))
  }

  ghost predicate MildRun(key: SubKey, e: Entry, evs: seq<KeyEvent>, c: nat) {
    forall i :: 0 <= i < |evs| ==> Mild(Run(key, e, evs[..i]), evs[i], c, Stream(key, e, evs[..i], c))
  }

  ghost predicate CalmRun(key: SubKey, e: Entry, evs: seq<KeyEvent>, c: nat) {
    forall i :: 0 <= i < |evs| ==> Calm(Run(key, e, evs[..i]), evs[i], c, Stream(key, e, evs[..i], c))
  }

  /** The client's stream, `s` so far, opens with a snapshot if the step opens it. */
  ghost predicate OpensWell(key: SubKey, e: Entry, ev: KeyEvent, c: nat, s: seq<Msg>) {
    s == [] ==> Opens(Offers(key, e, ev, c))
  }

  /** So it goes on for a client that has been sent `s` so far. */
  ghost predicate MildFrom(key: SubKey, e: Entry, evs: seq<KeyEvent>, c: nat, s: seq<Msg>) {
    forall i :: 0 <= i < |evs| ==>
      var (n, sent) := (Run(key, e, evs[..i]), s + Stream(key, e, evs[..i], c));
      Mild(n, evs[i], c, sent) && OpensWell(key, n, evs[i], c, sent)
  }

  ghost predicate FairFrom(key: SubKey, e: Entry, evs: seq<KeyEvent>, c: nat, s: seq<Msg>) {
    forall i :: 0 <= i < |evs| ==>
      var (n, sent) := (Run(key, e, evs[..i]), s + Stream(key, e, evs[..i], c));
      Calm(n, evs[i], c, sent) && OpensWell(key, n, evs[i], c, sent)
  }

  /** The height of the snapshot the client's current stretch of stream stands on, zero when it was
      attached without one or a snapshot has come down the stream since. */
  function NextBase(key: SubKey, e: Entry, ev: KeyEvent, c: nat, base: nat): nat {
    if Answers(e, ev, c) then ev.snapshot.ord.stamp
    else if Parks(key, e, ev) || ev == Join(c) then 0
    else if ev.Arrive? && ev.msg.ord.Snapshot? && Forwards(key, e, ev) != [] then 0
    else base
  }

  function Base(key: SubKey, e: Entry, evs: seq<KeyEvent>, c: nat, base: nat): nat {
    if evs == [] then base
    else
      var k := |evs| - 1;
      NextBase(key, Run(key, e, evs[..k]), evs[k], c, Base(key, e, evs[..k], c, base))
  }

  /** No increment forwarded to the client is below the snapshot it stands on. */
  ghost predicate NotBelow(key: SubKey, e: Entry, ev: KeyEvent, c: nat, base: nat) {
    c in e.subscribers ==> forall m <- Forwards(key, e, ev) :: m.ord.Snapshot? || m.ord.stamp >= base
  }

  ghost predicate NeverBelow(key: SubKey, e: Entry, evs: seq<KeyEvent>, c: nat, base: nat) {
    forall i :: 0 <= i < |evs| ==>
      NotBelow(key, Run(key, e, evs[..i]), evs[i], c, Base(key, e, evs[..i], c, base))
  }

  // ---------- The invariant ----------

  /** The stream passes so far; and while the snapshot it stands on is above the entry, that snapshot is
      the last thing the client was sent. */
  ghost predicate Passing(e: Entry, s: seq<Msg>, c: nat, base: nat) {
    && NoViolation(s) && Opens(s)
    && (c in e.subscribers ==>
          && Clean(s, Max(e.arb.last, base))
          && (base <= e.arb.last || (s != [] && s[|s| - 1].ord.stamp == base)))
  }

  lemma OpensAppend(s: seq<Msg>, t: seq<Msg>)
    requires Opens(s) && (s == [] ==> Opens(t))
    ensures Opens(s + t)
  {
  }

  lemma AttachedBackwards(key: SubKey, e: Entry, ev: KeyEvent, c: nat)
    requires c in KeyStep(key, e, ev).subscribers && c !in e.subscribers
    ensures ev == Join(c) || (ev.Answer? && ev.client == c && IsParked(e.pending, c))
  {
    hide UpdateEntry, LeaveEntry, Parking, Removed;
    match ev
    case Leave(d) => LeaveSubscribers(e, d, c);
    case Arrive(m, now) => ArriveSubscribers(key, e, m, now);
    case _ =>
  }

  lemma LeaveSubscribers(e: Entry, d: nat, c: nat)
    requires c in LeaveEntry(e, d).subscribers
    ensures c in e.subscribers
  {
    WithoutExactly(e.subscribers, d);
    assert c in multiset(Without(e.subscribers, d));
  }

  lemma ArriveSubscribers(key: SubKey, e: Entry, m: Msg, now: nat)
    ensures UpdateEntry(key, e, m, now).subscribers == e.subscribers
  {
    hide Kept, HeldFor, Ruled;
  }

  lemma StepWhileAttached(key: SubKey, e: Entry, ev: KeyEvent, c: nat, base: nat, s: seq<Msg>)
    requires key.L4Book? && WellFormed(key, e) && Legal(key, e, ev)
    requires OpensWell(key, e, ev, c, s) && NotBelow(key, e, ev, c, base) && Passing(e, s, c, base)
    requires c in e.subscribers && !Parks(key, e, ev) && ev != Leave(c) && ev != Join(c) && !Answers(e, ev, c)
    ensures Passing(KeyStep(key, e, ev), s + Offers(key, e, ev, c), c, NextBase(key, e, ev, c, base))
  {
    var n := KeyStep(key, e, ev);
    var offered := Offers(key, e, ev, c);
    StepKeepsAttached(key, e, ev, c);
    AttachedIsNotDropped(e, ev, c);
    StepHeights(key, e, ev);
    AtMostOne(key, e, ev);
    OpensAppend(s, offered);
    hide KeyStep, WellFormed, Legal, Clean, NoViolation, IsParked, Offers, Drops, Answers, Opens, Ruled;
    if offered == [] {
      assert s + offered == s;
      CleanWeaken(s, Max(e.arb.last, base), Max(n.arb.last, base));
    } else {
      var m := offered[0];
      assert offered == [m] && m == ev.msg;
      assert m in Forwards(key, e, ev);
      CleanNext(s, m, Max(e.arb.last, base));
      CleanWeaken(s + [m], m.ord.stamp, Max(n.arb.last, base));
      CleanWeaken(s + [m], m.ord.stamp, Max(n.arb.last, 0));
    }
  }

  lemma WaitingIsOfferedNothing(key: SubKey, e: Entry, ev: KeyEvent, c: nat)
    requires c !in e.subscribers && !Answers(e, ev, c)
    ensures Offers(key, e, ev, c) == []
  {
    hide Forwards, Backlog;
  }

  /** A client that is not attached is sent nothing, and passes as it did. */
  lemma StepWhileAway(key: SubKey, e: Entry, ev: KeyEvent, c: nat, base: nat, next: nat, s: seq<Msg>)
    requires Passing(e, s, c, base) && c !in e.subscribers
    requires ev != Join(c) && !Answers(e, ev, c)
    ensures Passing(KeyStep(key, e, ev), s + Offers(key, e, ev, c), c, next)
  {
    WaitingIsOfferedNothing(key, e, ev, c);
    assert s + [] == s;
    if c in KeyStep(key, e, ev).subscribers {
      AttachedBackwards(key, e, ev, c);
    }
    hide KeyStep, NoViolation, Clean, Offers, IsParked;
  }

  lemma {:induction false} BacklogAboveHeight(held: seq<Msg>, height: nat, single: bool, src: nat)
    ensures forall m <- Backlog(held, height, single, src) :: m.ord.stamp > height && m in held
  {
    if held != [] {
      BacklogAboveHeight(held[..|held| - 1], height, single, src);
      assert held == held[..|held| - 1] + [held[|held| - 1]];
    }
  }

  lemma StepAnswered(key: SubKey, e: Entry, snapshot: Msg, c: nat, base: nat, s: seq<Msg>)
    requires key.L4Book? && snapshot.ord.Snapshot?
    requires Passing(e, s, c, base) && IsParked(e.pending, c) && SafeBacklog(e, c, snapshot)
    ensures var ev := Answer(c, snapshot);
            Passing(KeyStep(key, e, ev), s + Offers(key, e, ev, c), c, snapshot.ord.stamp)
  {
    hide KeyStep, Clean, NoViolation, IsParked, Offers, Backlog, Rising, Opens, HeldBehind;
    var ev, h, b := Answer(c, snapshot), snapshot.ord.stamp, Behind(e, c, snapshot);
    AnswerAttaches(key, e, c, snapshot);
    AnswerKeepsHeight(key, e, c, snapshot);
    BacklogAboveHeight(HeldBehind(e, c), h, false, snapshot.src);
    SnapshotThenBacklog(s, snapshot, b);
    var sent := s + ([snapshot] + b);
    CleanWeaken(sent, Top(b, h), Max(e.arb.last, h));
    if b == [] {
      assert sent[|sent| - 1] == snapshot;
    } else {
      assert b[|b| - 1] in b;
    }
  }

  lemma SnapshotThenBacklog(s: seq<Msg>, snapshot: Msg, b: seq<Msg>)
    requires NoViolation(s) && Opens(s) && snapshot.ord.Snapshot? && Rising(b)
    requires forall m <- b :: m.ord.stamp > snapshot.ord.stamp
    ensures Clean(s + ([snapshot] + b), Top(b, snapshot.ord.stamp)) && Opens(s + ([snapshot] + b))
  {
    CleanNext(s, snapshot, 0);
    OpensAppend(s, [snapshot]);
    hide Clean, NoViolation, Opens, Rising;
    CleanRising(s + [snapshot], b, snapshot.ord.stamp);
    assert s + ([snapshot] + b) == (s + [snapshot]) + b;
  }

  lemma StepParked(key: SubKey, e: Entry, ev: KeyEvent, c: nat, base: nat, s: seq<Msg>)
    requires key.L4Book? && Parks(key, e, ev) && Passing(e, s, c, base)
    ensures Passing(KeyStep(key, e, ev), s + Offers(key, e, ev, c), c, 0)
  {
    assert s + Offers(key, e, ev, c) == s;
    hide NoViolation, Clean;
  }

  lemma StepJoins(key: SubKey, e: Entry, c: nat)
    ensures Passing(KeyStep(key, e, Join(c)), [], c, 0)
    ensures Offers(key, e, Join(c), c) == []
  {
    NothingJudged();
    hide Judged, JoinEntry;
  }

  lemma StepPasses(key: SubKey, e: Entry, ev: KeyEvent, c: nat, base: nat, s: seq<Msg>)
    requires key.L4Book? && WellFormed(key, e) && Legal(key, e, ev)
    requires Mild(e, ev, c, s) && OpensWell(key, e, ev, c, s) && NotBelow(key, e, ev, c, base)
    requires Passing(e, s, c, base)
    ensures Passing(KeyStep(key, e, ev), s + Offers(key, e, ev, c), c, NextBase(key, e, ev, c, base))
  {
    hide KeyStep, Offers, Passing, Forwards, SafeBacklog, IsParked, WellFormed, OpensWell, NotBelow;
    if Parks(key, e, ev) {
      StepParked(key, e, ev, c, base, s);
    } else if Answers(e, ev, c) {
      StepAnswered(key, e, ev.snapshot, c, base, s);
    } else if ev == Join(c) {
      StepJoins(key, e, c);
      assert s + [] == [];
    } else if c in e.subscribers {
      StepWhileAttached(key, e, ev, c, base, s);
    } else {
      StepWhileAway(key, e, ev, c, base, NextBase(key, e, ev, c, base), s);
    }
  }

  lemma MildPrefix(key: SubKey, e: Entry, evs: seq<KeyEvent>, n: nat, c: nat, s: seq<Msg>)
    requires MildFrom(key, e, evs, c, s) && n <= |evs|
    ensures MildFrom(key, e, evs[..n], c, s)
  {
    hide Mild, OpensWell, Run, Stream;
    forall i | 0 <= i < n ensures evs[..n][..i] == evs[..i] && evs[..n][i] == evs[i] {
    }
  }

  lemma NeverBelowPrefix(key: SubKey, e: Entry, evs: seq<KeyEvent>, n: nat, c: nat, base: nat)
    requires n <= |evs| && NeverBelow(key, e, evs, c, base)
    ensures NeverBelow(key, e, evs[..n], c, base)
  {
    hide NotBelow, Run, Base;
    forall i | 0 <= i < n ensures evs[..n][..i] == evs[..i] && evs[..n][i] == evs[i] {
    }
  }

  lemma StreamLast(key: SubKey, e: Entry, evs: seq<KeyEvent>, c: nat)
    requires evs != []
    ensures var k := |evs| - 1;
            Stream(key, e, evs, c) == Stream(key, e, evs[..k], c) + Offers(key, Run(key, e, evs[..k]), evs[k], c)
  {
    hide Run, Offers;
  }

  lemma {:induction false} RunPasses(key: SubKey, e: Entry, evs: seq<KeyEvent>, c: nat, base: nat, s: seq<Msg>)
    requires key.L4Book? && WellFormed(key, e) && LegalRun(key, e, evs)
    requires Passing(e, s, c, base) && MildFrom(key, e, evs, c, s) && NeverBelow(key, e, evs, c, base)
    ensures Passing(Run(key, e, evs), s + Stream(key, e, evs, c), c, Base(key, e, evs, c, base))
  {
    hide KeyStep, Offers, Passing, NextBase, WellFormed, Legal, Mild, OpensWell, NotBelow, Stream;
    if evs == [] {
      NothingStreamed(key, e, c);
      assert s + [] == s;
    } else {
      var k := |evs| - 1;
      var before := s + Stream(key, e, evs[..k], c);
      LegalPrefix(key, e, evs, k);
      RunKeepsWellFormed(key, e, evs[..k]);
      MildPrefix(key, e, evs, k, c, s);
      NeverBelowPrefix(key, e, evs, k, c, base);
      RunPasses(key, e, evs[..k], c, base, s);
      StepPasses(key, Run(key, e, evs[..k]), evs[k], c, Base(key, e, evs[..k], c, base), before);
      StreamLast(key, e, evs, c);
      assert s + Stream(key, e, evs, c) == before + Offers(key, Run(key, e, evs[..k]), evs[k], c);
    }
  }

  lemma NothingStreamed(key: SubKey, e: Entry, c: nat)
    ensures Stream(key, e, [], c) == []
  {
  }

  // ---------- Exactly which streams pass ----------

  /** A frame directly after a higher one is a violation, unless it is a snapshot. */
  lemma FallViolates(t: seq<Msg>, i: nat)
    requires 0 < i < |t| && !t[i].ord.Snapshot? && t[i].ord.stamp < t[i - 1].ord.stamp
    ensures !NoViolation(t)
  {
    hide Judged;
    var items := Items(t);
    assert !Restarts(items, i);
    assert SameSegment(items, i - 1, i);
    NoViolationIffOrdered(items);
  }

  lemma {:induction false} ViolationStays(s: seq<Msg>, t: seq<Msg>)
    requires !NoViolation(s)
    ensures !NoViolation(s + t)
  {
    hide NoViolation;
    if t == [] {
      assert s + t == s;
    } else {
      var k := |t| - 1;
      assert s + t == (s + t[..k]) + [t[k]];
      ViolationStays(s, t[..k]);
      OneMoreStays(s + t[..k], t[k]);
    }
  }

  lemma OneMoreStays(s: seq<Msg>, m: Msg)
    requires !NoViolation(s)
    ensures !NoViolation(s + [m])
  {
    hide Judged, Items;
    JudgeNext(s, m);
  }

  lemma BelowFails(key: SubKey, e: Entry, ev: KeyEvent, c: nat, base: nat, s: seq<Msg>)
    requires key.L4Book? && WellFormed(key, e) && Legal(key, e, ev)
    requires Passing(e, s, c, base) && !NotBelow(key, e, ev, c, base)
    ensures !NoViolation(s + Offers(key, e, ev, c))
  {
    AtMostOne(key, e, ev);
    StepHeights(key, e, ev);
    hide KeyStep, WellFormed, Legal, Clean, NoViolation, Ruled;
    var m :| m in Forwards(key, e, ev) && !m.ord.Snapshot? && m.ord.stamp < base;
    assert Forwards(key, e, ev) == [m];
    FallViolates(s + [m], |s|);
  }

  lemma {:induction false} BelowIsCaught(key: SubKey, e: Entry, evs: seq<KeyEvent>, c: nat, base: nat, s: seq<Msg>)
    requires key.L4Book? && WellFormed(key, e) && LegalRun(key, e, evs)
    requires Passing(e, s, c, base) && MildFrom(key, e, evs, c, s) && !NeverBelow(key, e, evs, c, base)
    ensures !NoViolation(s + Stream(key, e, evs, c))
  {
    hide KeyStep, Offers, Passing, NextBase, WellFormed, Legal, Mild, OpensWell, NotBelow, Stream, NoViolation;
    var k := |evs| - 1;
    var n, offered := Run(key, e, evs[..k]), Offers(key, Run(key, e, evs[..k]), evs[k], c);
    var before := s + Stream(key, e, evs[..k], c);
    LegalPrefix(key, e, evs, k);
    MildPrefix(key, e, evs, k, c, s);
    StreamLast(key, e, evs, c);
    assert s + Stream(key, e, evs, c) == before + offered;
    if NeverBelow(key, e, evs[..k], c, base) {
      LastIsBelow(key, e, evs, c, base);
      RunPasses(key, e, evs[..k], c, base, s);
      RunKeepsWellFormed(key, e, evs[..k]);
      BelowFails(key, n, evs[k], c, Base(key, e, evs[..k], c, base), before);
    } else {
      BelowIsCaught(key, e, evs[..k], c, base, s);
      ViolationStays(before, offered);
    }
  }

  lemma LastIsBelow(key: SubKey, e: Entry, evs: seq<KeyEvent>, c: nat, base: nat)
    requires evs != [] && !NeverBelow(key, e, evs, c, base)
    requires NeverBelow(key, e, evs[..|evs| - 1], c, base)
    ensures var k := |evs| - 1;
            !NotBelow(key, Run(key, e, evs[..k]), evs[k], c, Base(key, e, evs[..k], c, base))
  {
    hide NotBelow, Run, Base;
    var k := |evs| - 1;
    forall i | 0 <= i < k
      ensures NotBelow(key, Run(key, e, evs[..i]), evs[i], c, Base(key, e, evs[..i], c, base))
    {
      assert evs[..k][..i] == evs[..i];
      assert NotBelow(key, Run(key, e, evs[..k][..i]), evs[..k][i], c, Base(key, e, evs[..k][..i], c, base));
    }
  }

  /** Whatever the sources and the other clients do, the `l4Book` stream of a client that joins once and
      stays passes the checker exactly when no increment goes to it below the snapshot it stands on:
      as long as its stream opens with a snapshot and what is held for it is safe to send when it is
      answered. */
  lemma PassesIffNeverBelow(key: SubKey, e: Entry, evs: seq<KeyEvent>, c: nat)
    requires key.L4Book? && WellFormed(key, e) && LegalRun(key, e, evs)
    requires c !in Listed(e) && MildFrom(key, e, evs, c, [])
    ensures Judged(Items(Stream(key, e, evs, c))).violations == [] <==> NeverBelow(key, e, evs, c, 0)
  {
    NothingJudged();
    assert Passing(e, [], c, 0);
    hide Stream, MildFrom, NeverBelow, Judged, Items, Run, WellFormed, LegalRun;
    assert [] + Stream(key, e, evs, c) == Stream(key, e, evs, c);
    if NeverBelow(key, e, evs, c, 0) {
      RunPasses(key, e, evs, c, 0, []);
    } else {
      BelowIsCaught(key, e, evs, c, 0, []);
    }
  }

  // ---------- Safe answers ----------

  lemma FairIsMild(key: SubKey, e: Entry, evs: seq<KeyEvent>, c: nat, s: seq<Msg>)
    requires FairFrom(key, e, evs, c, s)
    ensures MildFrom(key, e, evs, c, s)
  {
    hide Mild, OpensWell, Run, Stream;
  }

  /** The snapshot an attached client stands on is not above the entry. */
  ghost predicate Covered(e: Entry, c: nat, base: nat) {
    c in e.subscribers ==> base <= e.arb.last
  }

  lemma StepCovers(key: SubKey, e: Entry, ev: KeyEvent, c: nat, base: nat, s: seq<Msg>)
    requires key.L4Book? && WellFormed(key, e) && Legal(key, e, ev)
    requires Calm(e, ev, c, s) && Covered(e, c, base)
    ensures Covered(KeyStep(key, e, ev), c, NextBase(key, e, ev, c, base)) && NotBelow(key, e, ev, c, base)
  {
    hide KeyStep, WellFormed, Legal, IsParked, Forwards, SafeBacklog;
    var n := KeyStep(key, e, ev);
    AtMostOne(key, e, ev);
    if Answers(e, ev, c) {
      AnswerKeepsHeight(key, e, c, ev.snapshot);
    } else if c in n.subscribers && c !in e.subscribers {
      AttachedBackwards(key, e, ev, c);
    }
    if c in e.subscribers && !Parks(key, e, ev) {
      AttachedIsNotDropped(e, ev, c);
      StepHeights(key, e, ev);
    } else if Parks(key, e, ev) {
      ParkingDetaches(key, e, ev, c);
    }
  }

  lemma ParkingDetaches(key: SubKey, e: Entry, ev: KeyEvent, c: nat)
    requires Parks(key, e, ev)
    ensures c !in KeyStep(key, e, ev).subscribers && Forwards(key, e, ev) == []
  {
  }

  lemma FairPrefix(key: SubKey, e: Entry, evs: seq<KeyEvent>, n: nat, c: nat, s: seq<Msg>)
    requires FairFrom(key, e, evs, c, s) && n <= |evs|
    ensures FairFrom(key, e, evs[..n], c, s)
  {
    hide Calm, OpensWell, Run, Stream;
    forall i | 0 <= i < n ensures evs[..n][..i] == evs[..i] && evs[..n][i] == evs[i] {
    }
  }

  lemma NeverBelowNext(key: SubKey, e: Entry, evs: seq<KeyEvent>, c: nat, base: nat)
    requires evs != [] && NeverBelow(key, e, evs[..|evs| - 1], c, base)
    requires var k := |evs| - 1;
             NotBelow(key, Run(key, e, evs[..k]), evs[k], c, Base(key, e, evs[..k], c, base))
    ensures NeverBelow(key, e, evs, c, base)
  {
    hide NeverBelow;
    if !NeverBelow(key, e, evs, c, base) {
      LastIsBelow(key, e, evs, c, base);
    }
  }

  lemma {:induction false} SafeAnswersCover(
      key: SubKey, e: Entry, evs: seq<KeyEvent>, c: nat, base: nat, s: seq<Msg>)
    requires key.L4Book? && WellFormed(key, e) && LegalRun(key, e, evs)
    requires Covered(e, c, base) && FairFrom(key, e, evs, c, s)
    ensures NeverBelow(key, e, evs, c, base) && Covered(Run(key, e, evs), c, Base(key, e, evs, c, base))
  {
    hide KeyStep, NextBase, WellFormed, Legal, Mild, OpensWell, NotBelow, Stream, Covered, Calm;
    if evs == [] {
    } else {
      var k := |evs| - 1;
      LegalPrefix(key, e, evs, k);
      RunKeepsWellFormed(key, e, evs[..k]);
      FairPrefix(key, e, evs, k, c, s);
      SafeAnswersCover(key, e, evs[..k], c, base, s);
      StepCovers(key, Run(key, e, evs[..k]), evs[k], c, Base(key, e, evs[..k], c, base),
                 s + Stream(key, e, evs[..k], c));
      hide NeverBelow, FairFrom, LegalRun;
      NeverBelowNext(key, e, evs, c, base);
    }
  }

  /** So the stream passes the checker whatever comes, as long as it opens with a snapshot and the client
      is answered safely whenever it is answered: with what is held rising, and neither it nor the
      snapshot above the height of the entry. */
  lemma ArbiterPassesTheChecker(key: SubKey, e: Entry, evs: seq<KeyEvent>, c: nat)
    requires key.L4Book? && WellFormed(key, e) && LegalRun(key, e, evs)
    requires c !in Listed(e) && FairFrom(key, e, evs, c, [])
    ensures Judged(Items(Stream(key, e, evs, c))).violations == []
    ensures SegmentsOrdered(Items(Stream(key, e, evs, c)))
  {
    hide SegmentsOrdered, Stream, FairFrom, MildFrom, NeverBelow, Judged, Items, Run, WellFormed, LegalRun;
    FairIsMild(key, e, evs, c, []);
    SafeAnswersCover(key, e, evs, c, 0, []);
    PassesIffNeverBelow(key, e, evs, c);
    NoViolationIffOrdered(Items(Stream(key, e, evs, c)));
  }
}
