/** The stream checker for `l4Book`: the loop that judges a client's stream, what its verdict means,
and why a stream the arbiter produces passes it. */
module L4Check {
  import opened Wire
  import opened Arbiter
  import opened Entries
  import opened Streams
  import opened Epochs

  /** A received message as the checker reads it: an acknowledgement, or a frame whose height may be
      missing. */
  datatype Item = Ack | Data(snapshot: bool, height: Option<nat>)

  datatype Violation = Backwards(from: nat, to: nat) | Reopened(height: nat, after: nat)

  datatype Verdict = Verdict(
    msgs: nat,
    snapshotHeight: Option<nat>,
    updatesBeforeSnapshot: nat,
    resyncs: seq<(Option<nat>, nat)>,
    counts: map<nat, nat>,
    blocks: seq<nat>,
    violations: seq<Violation>,
    seen: set<nat>,
    last: Option<nat>)

  const START := Verdict(0, None, 0, [], map[], [], [], {}, None)

  function CountOf(counts: map<nat, nat>, h: nat): nat {
    if h in counts then counts[h] else 0
  }

  /** What a snapshot does: the first is noted, a later one starts the checks over. */
  function NoteSnapshot(v: Verdict, h: nat): Verdict {
    if v.snapshotHeight.None? then v.(snapshotHeight := Some(h))
    else v.(resyncs := v.resyncs + [(v.last, h)], seen := {}, last := None)
  }

  function NoteHeight(v: Verdict, h: nat): Verdict {
    var c := v.(counts := v.counts[h := CountOf(v.counts, h) + 1]);
    if v.last == Some(h) then c
    else
      var judged :=
        if v.last.None? then v.violations
        else if h < v.last.value then v.violations + [Backwards(v.last.value, h)]
        else if h in v.seen then v.violations + [Reopened(h, v.last.value)]
        else v.violations;
      c.(violations := judged, blocks := v.blocks + [h], seen := v.seen + {h}, last := Some(h))
  }

  function Judge(v: Verdict, item: Item): Verdict {
    match item
    case Ack => v
    case Data(_, None) => v.(msgs := v.msgs + 1)
    case Data(snapshot, Some(h)) =>
      var r := v.(msgs := v.msgs + 1);
      var n := if snapshot then NoteSnapshot(r, h)
               else if r.snapshotHeight.None? then r.(updatesBeforeSnapshot := r.updatesBeforeSnapshot + 1)
               else r;
      NoteHeight(n, h)
  }

  function Judged(items: seq<Item>): Verdict {
    if items == [] then START else Judge(Judged(items[..|items| - 1]), items[|items| - 1])
  }

  /** The checker's running report. */
  class Report {
    var msgs: nat
    var snapshotHeight: Option<nat>
    var updatesBeforeSnapshot: nat
    var resyncs: seq<(Option<nat>, nat)>
    var counts: map<nat, nat>
    var blocks: seq<nat>
    var violations: seq<Violation>

    constructor ()
      ensures msgs == 0 && snapshotHeight == None && updatesBeforeSnapshot == 0 && resyncs == []
      ensures counts == map[] && blocks == [] && violations == []
    {
      msgs, snapshotHeight, updatesBeforeSnapshot, resyncs := 0, None, 0, [];
      counts, blocks, violations := map[], [], [];
    }

    ghost function View(seen: set<nat>, last: Option<nat>): Verdict
      reads this
    {
      Verdict(msgs, snapshotHeight, updatesBeforeSnapshot, resyncs, counts, blocks, violations, seen, last)
    }

    /** One turn of the loop. `seen` and `last` are the loop's own variables. */
    method Receive(item: Item, seen: set<nat>, last: Option<nat>) returns (seen': set<nat>, last': Option<nat>)
      modifies this
      ensures View(seen', last') == Judge(old(View(seen, last)), item)
    {
      hide NoteHeight;
      seen', last' := seen, last;
      if item.Ack? {
        return;
      }
      msgs := msgs + 1;
      if item.height.None? {
        return;
      }
      var h := item.height.value;
      if item.snapshot {
        if snapshotHeight.None? {
          snapshotHeight := Some(h);
        } else {
          resyncs := resyncs + [(last', h)];
          seen' := {};
          last' := None;
        }
      } else if snapshotHeight.None? {
        updatesBeforeSnapshot := updatesBeforeSnapshot + 1;
      }
      seen', last' := Note(h, seen', last');
    }

    /** The checks on one frame's height. */
    method Note(h: nat, seen: set<nat>, last: Option<nat>) returns (seen': set<nat>, last': Option<nat>)
      modifies this
      ensures View(seen', last') == NoteHeight(old(View(seen, last)), h)
    {
      seen', last' := seen, last;
      counts := counts[h := (if h in counts then counts[h] else 0) + 1];
      if last' == Some(h) {
        return;
      }
      if last'.Some? {
        if h < last'.value {
          violations := violations + [Backwards(last'.value, h)];
        } else if h in seen' {
          violations := violations + [Reopened(h, last'.value)];
        }
      }
      blocks := blocks + [h];
      seen' := seen' + {h};
      last' := Some(h);
    }

    /** Judges a whole stream, starting from a new report. */
    method RunClient(items: seq<Item>) returns (seen: set<nat>, last: Option<nat>)
      requires View({}, None) == START
      modifies this
      ensures View(seen, last) == Judged(items)
    {
      seen, last := {}, None;
      for i := 0 to |items|
        invariant View(seen, last) == Judged(items[..i])
      {
        assert items[..i + 1][..i] == items[..i];
        seen, last := Receive(items[i], seen, last);
      }
      assert items[..|items|] == items;
    }
  }

  // ---------- What the verdict means ----------

  predicate HasHeight(item: Item) {
    item.Data? && item.height.Some?
  }

  /** The item is a snapshot with an earlier snapshot before it. */
  ghost predicate Restarts(items: seq<Item>, k: nat)
    requires k < |items|
  {
    HasHeight(items[k]) && items[k].snapshot
    && exists j :: 0 <= j < k && HasHeight(items[j]) && items[j].snapshot
  }

  /** Two frames lie in one segment: no restart comes after the first, up to and including the second. */
  ghost predicate SameSegment(items: seq<Item>, i: nat, j: nat)
    requires i <= j < |items|
  {
    HasHeight(items[i]) && HasHeight(items[j])
    && forall k :: i < k <= j ==> !Restarts(items, k)
  }

  /** Heights never fall within a segment. */
  ghost predicate SegmentsOrdered(items: seq<Item>) {
    forall i, j :: 0 <= i < j < |items| && SameSegment(items, i, j)
      ==> items[i].height.value <= items[j].height.value
  }

  /** The frame belongs to the segment still open at the end. */
  ghost predicate Open(items: seq<Item>, i: nat)
    requires i < |items|
  {
    HasHeight(items[i]) && forall k :: i < k < |items| ==> !Restarts(items, k)
  }

  ghost predicate Snapshotted(items: seq<Item>) {
    exists j :: 0 <= j < |items| && HasHeight(items[j]) && items[j].snapshot
  }

  ghost predicate CheckInv(items: seq<Item>, v: Verdict) {
    && (v.snapshotHeight.Some? <==> Snapshotted(items))
    && OpenHeights(items, v.seen)
    && (v.last.None? ==> v.seen == {})
    && (v.last.Some? ==> v.last.value in v.seen)
    && (v.violations == [] <==> SegmentsOrdered(items))
    && (v.violations == [] && v.last.Some? ==> forall h :: h in v.seen ==> h <= v.last.value)
    && (v.violations != [] ==> v.violations[0].Backwards?)
  }

  lemma RestartsPrefix(items: seq<Item>, n: nat)
    requires n <= |items|
    ensures forall k :: 0 <= k < n ==> (Restarts(items[..n], k) <==> Restarts(items, k))
  {
    forall k | 0 <= k < n ensures Restarts(items[..n], k) <==> Restarts(items, k) {
      if Restarts(items, k) {
        var j :| 0 <= j < k && HasHeight(items[j]) && items[j].snapshot;
        assert HasHeight(items[..n][j]);
      }
    }
  }

  lemma OpenStep(items: seq<Item>, i: nat)
    requires items != [] && i < |items|
    ensures var k := |items| - 1;
            Open(items, i) <==> if i == k then HasHeight(items[k])
                                else Open(items[..k], i) && !Restarts(items, k)
  {
    RestartsPrefix(items, |items| - 1);
  }

  /** Extending a stream by one frame: its segments are ordered exactly when they were before and the
      newcomer is no lower than anything in the segment it joins. */
  lemma OrderedStep(items: seq<Item>)
    requires items != []
    ensures var k := |items| - 1;
            SegmentsOrdered(items) <==>
              && SegmentsOrdered(items[..k])
              && (HasHeight(items[k]) && !Restarts(items, k) ==>
                    forall i :: 0 <= i < k && Open(items[..k], i)
                      ==> items[i].height.value <= items[k].height.value)
  {
    var k := |items| - 1;
    var init := items[..k];
    RestartsPrefix(items, k);
    hide Restarts;
    forall i, j | 0 <= i <= j < k ensures SameSegment(init, i, j) <==> SameSegment(items, i, j) {
    }
    if SegmentsOrdered(items) && HasHeight(items[k]) && !Restarts(items, k) {
      forall i | 0 <= i < k && Open(init, i) ensures items[i].height.value <= items[k].height.value {
        assert SameSegment(items, i, k);
      }
    }
    if SegmentsOrdered(items) {
      forall i, j | 0 <= i < j < k && SameSegment(init, i, j)
        ensures init[i].height.value <= init[j].height.value
      {
        assert SameSegment(items, i, j);
      }
    }
    if SegmentsOrdered(init) && (HasHeight(items[k]) && !Restarts(items, k) ==>
         forall i :: 0 <= i < k && Open(init, i) ==> items[i].height.value <= items[k].height.value) {
      forall i, j | 0 <= i < j < |items| && SameSegment(items, i, j)
        ensures items[i].height.value <= items[j].height.value
      {
        if j == k {
          assert Open(init, i);
        } else {
          assert SameSegment(init, i, j);
        }
      }
    }
  }

  lemma {:induction false} SeenMaximum(items: seq<Item>, v: Verdict, h: nat)
    requires CheckInv(items, v) && v.violations == []
    ensures (forall i :: 0 <= i < |items| && Open(items, i) ==> items[i].height.value <= h)
       <==> v.last.None? || v.last.value <= h
  {
    if v.last.Some? {
      var i :| 0 <= i < |items| && Open(items, i) && items[i].height.value == v.last.value;
      assert items[i].height.value <= h ==> v.last.value <= h;
    }
  }

  lemma SnapshottedStep(items: seq<Item>)
    requires items != []
    ensures var k := |items| - 1;
            && (Snapshotted(items) <==> Snapshotted(items[..k]) || (HasHeight(items[k]) && items[k].snapshot))
            && (Restarts(items, k) <==> HasHeight(items[k]) && items[k].snapshot && Snapshotted(items[..k]))
  {
    var k := |items| - 1;
    if Snapshotted(items[..k]) {
      var j :| 0 <= j < k && HasHeight(items[..k][j]) && items[..k][j].snapshot;
      assert HasHeight(items[j]) && items[j].snapshot;
    }
    if Restarts(items, k) {
      var j :| 0 <= j < k && HasHeight(items[j]) && items[j].snapshot;
      assert HasHeight(items[..k][j]);
    }
    if Snapshotted(items) {
      var j :| 0 <= j < |items| && HasHeight(items[j]) && items[j].snapshot;
      if j < k {
        assert HasHeight(items[..k][j]);
      }
    }
  }

  /** What one frame does to the set of heights seen. */
  lemma SeenStep(v: Verdict, item: Item)
    requires v.last.Some? ==> v.last.value in v.seen
    ensures var n := Judge(v, item);
            && n.seen == (if !HasHeight(item) then v.seen
                          else if item.snapshot && v.snapshotHeight.Some? then {item.height.value}
                          else v.seen + {item.height.value})
            && n.last == (if HasHeight(item) then item.height else v.last)
            && (n.snapshotHeight.Some? <==> v.snapshotHeight.Some? || (HasHeight(item) && item.snapshot))
  {
  }

  /** The set holds exactly the heights of the open segment. */
  ghost predicate OpenHeights(items: seq<Item>, seen: set<nat>) {
    && (forall h :: h in seen ==> exists i :: 0 <= i < |items| && Open(items, i) && items[i].height.value == h)
    && (forall i :: 0 <= i < |items| && Open(items, i) ==> items[i].height.value in seen)
  }

  lemma OpenHeightsAppend(items: seq<Item>, seen: set<nat>)
    requires items != [] && OpenHeights(items[..|items| - 1], seen)
    ensures var k := |items| - 1;
            var kept := if Restarts(items, k) then {} else seen;
            OpenHeights(items, if HasHeight(items[k]) then kept + {items[k].height.value} else seen)
  {
    var k := |items| - 1;
    var init := items[..k];
    forall i | 0 <= i < |items|
      ensures Open(items, i) <==> if i == k then HasHeight(items[k]) else Open(init, i) && !Restarts(items, k)
    {
      OpenStep(items, i);
    }
    assert Restarts(items, k) ==> HasHeight(items[k]);
    hide Open, Restarts;
    forall h | h in seen && !Restarts(items, k)
      ensures exists i :: 0 <= i < |items| && Open(items, i) && items[i].height.value == h
    {
      var i :| 0 <= i < |init| && Open(init, i) && init[i].height.value == h;
      assert Open(items, i);
    }
    if HasHeight(items[k]) {
      assert Open(items, k);
    }
  }

  lemma OpenHeightsStep(items: seq<Item>, v: Verdict)
    requires items != [] && CheckInv(items[..|items| - 1], v)
    ensures var n := Judge(v, items[|items| - 1]);
            && OpenHeights(items, n.seen)
            && (n.last.None? ==> n.seen == {})
            && (n.last.Some? ==> n.last.value in n.seen)
            && (n.snapshotHeight.Some? <==> Snapshotted(items))
  {
    SeenStep(v, items[|items| - 1]);
    SnapshottedStep(items);
    OpenHeightsAppend(items, v.seen);
    hide Restarts, OpenHeights, Judge, SegmentsOrdered;
  }

  lemma VerdictStep(items: seq<Item>, v: Verdict)
    requires items != [] && CheckInv(items[..|items| - 1], v)
    ensures var n := Judge(v, items[|items| - 1]);
            && (n.violations == [] <==> SegmentsOrdered(items))
            && (n.violations == [] && n.last.Some? ==> forall h :: h in n.seen ==> h <= n.last.value)
            && (n.violations != [] ==> n.violations[0].Backwards?)
  {
    var k := |items| - 1;
    var item := items[k];
    var n := Judge(v, item);
    OrderedStep(items);
    SnapshottedStep(items);
    if HasHeight(item) && v.violations == [] {
      SeenMaximum(items[..k], v, item.height.value);
    }
    hide SegmentsOrdered, Open, Restarts;
  }

  lemma {:induction false} CheckState(items: seq<Item>)
    ensures CheckInv(items, Judged(items))
  {
    if items != [] {
      CheckState(items[..|items| - 1]);
      hide OpenHeights, SegmentsOrdered, Snapshotted, Judge;
      OpenHeightsStep(items, Judged(items[..|items| - 1]));
      VerdictStep(items, Judged(items[..|items| - 1]));
    }
  }

  /** The checker reports no height violation exactly when heights never fall within any segment its
      snapshots delimit; and the first violation of any stream is a height going backwards, so a
      block can only be found reopened after one of those. */
  lemma NoViolationIffOrdered(items: seq<Item>)
    ensures Judged(items).violations == [] <==> SegmentsOrdered(items)
    ensures Judged(items).violations != [] ==> Judged(items).violations[0].Backwards?
  {
    CheckState(items);
    hide Judged, SegmentsOrdered, OpenHeights, Snapshotted;
  }

  // ---------- What the report says ----------

  /** The height of the last frame that has one. */
  ghost function LastHeight(items: seq<Item>): Option<nat> {
    if items == [] then None
    else if HasHeight(items[|items| - 1]) then items[|items| - 1].height
    else LastHeight(items[..|items| - 1])
  }

  ghost function FirstSnapshot(items: seq<Item>): Option<nat> {
    if items == [] then None
    else
      var k := |items| - 1;
      var before := FirstSnapshot(items[..k]);
      if before.Some? then before else if HasHeight(items[k]) && items[k].snapshot then items[k].height else None
  }

  ghost function HowMany(items: seq<Item>): nat {
    if items == [] then 0 else HowMany(items[..|items| - 1]) + if items[|items| - 1].Data? then 1 else 0
  }

  /** Increments received before any snapshot. */
  ghost function Early(items: seq<Item>): nat {
    if items == [] then 0
    else
      var k := |items| - 1;
      Early(items[..k])
      + if HasHeight(items[k]) && !items[k].snapshot && FirstSnapshot(items[..k]).None? then 1 else 0
  }

  ghost function AtHeight(items: seq<Item>, h: nat): nat {
    if items == [] then 0
    else
      var item := items[|items| - 1];
      AtHeight(items[..|items| - 1], h) + if HasHeight(item) && item.height == Some(h) then 1 else 0
  }

  /** The restarts: the height before, and the height started over from. */
  ghost function Starts(items: seq<Item>): seq<(Option<nat>, nat)> {
    if items == [] then []
    else
      var k := |items| - 1;
      Starts(items[..k]) + if Restarts(items, k) then [(LastHeight(items[..k]), items[k].height.value)] else []
  }

  /** The frame is of another height than the one before it, or starts over. */
  ghost predicate Turns(items: seq<Item>, k: nat)
    requires k < |items|
  {
    HasHeight(items[k]) && (Restarts(items, k) || LastHeight(items[..k]) != items[k].height)
  }

  ghost function Turned(items: seq<Item>): seq<nat> {
    if items == [] then []
    else
      var k := |items| - 1;
      Turned(items[..k]) + if Turns(items, k) then [items[k].height.value] else []
  }

  /** What is wrong with a frame: its height goes back, or it is one of those left before in its segment. */
  ghost function Wrong(items: seq<Item>, k: nat): seq<Violation>
    requires k < |items|
  {
    var last := LastHeight(items[..k]);
    if !Turns(items, k) || Restarts(items, k) || last.None? then []
    else if items[k].height.value < last.value then [Backwards(last.value, items[k].height.value)]
    else if exists i :: 0 <= i < k && Open(items[..k], i) && items[i].height.value == items[k].height.value
    then [Reopened(items[k].height.value, last.value)] else []
  }

  ghost function AllWrong(items: seq<Item>): seq<Violation> {
    if items == [] then [] else AllWrong(items[..|items| - 1]) + Wrong(items, |items| - 1)
  }

  ghost predicate Reports(items: seq<Item>, v: Verdict) {
    && v.msgs == HowMany(items) && v.updatesBeforeSnapshot == Early(items)
    && v.snapshotHeight == FirstSnapshot(items) && v.last == LastHeight(items)
    && v.resyncs == Starts(items) && v.blocks == Turned(items) && v.violations == AllWrong(items)
    && forall h :: CountOf(v.counts, h) == AtHeight(items, h)
  }

  /** What one turn adds to each list of the report. */
  lemma JudgeAdds(v: Verdict, item: Item)
    ensures var n := Judge(v, item);
            var restart := HasHeight(item) && item.snapshot && v.snapshotHeight.Some?;
            && n.resyncs == v.resyncs + (if restart then [(v.last, item.height.value)] else [])
            && n.blocks == v.blocks
                 + (if HasHeight(item) && (restart || v.last != item.height) then [item.height.value] else [])
            && n.violations == v.violations
                 + (if !HasHeight(item) || restart || v.last.None? || v.last == item.height then []
                    else if item.height.value < v.last.value then [Backwards(v.last.value, item.height.value)]
                    else if item.height.value in v.seen then [Reopened(item.height.value, v.last.value)] else [])
  {
  }

  lemma JudgeCounts(v: Verdict, item: Item)
    ensures var n := Judge(v, item);
            && n.msgs == v.msgs + (if item.Data? then 1 else 0)
            && n.last == (if HasHeight(item) then item.height else v.last)
            && n.snapshotHeight == (if v.snapshotHeight.Some? then v.snapshotHeight
                                    else if HasHeight(item) && item.snapshot then item.height else None)
            && n.updatesBeforeSnapshot == v.updatesBeforeSnapshot
                 + (if HasHeight(item) && !item.snapshot && v.snapshotHeight.None? then 1 else 0)
            && forall h: nat :: CountOf(n.counts, h) == CountOf(v.counts, h)
                             + if HasHeight(item) && item.height == Some(h) then 1 else 0
  {
  }

  lemma ReportCounts(items: seq<Item>, v: Verdict)
    requires items != [] && Reports(items[..|items| - 1], v)
    ensures var n := Judge(v, items[|items| - 1]);
            && n.msgs == HowMany(items) && n.updatesBeforeSnapshot == Early(items)
            && n.snapshotHeight == FirstSnapshot(items) && n.last == LastHeight(items)
            && forall h :: CountOf(n.counts, h) == AtHeight(items, h)
  {
    JudgeCounts(v, items[|items| - 1]);
    hide Judge, CountOf, Starts, Turned, AllWrong;
  }

  lemma SeenIff(items: seq<Item>, seen: set<nat>, h: nat)
    requires OpenHeights(items, seen)
    ensures h in seen <==> exists i :: 0 <= i < |items| && Open(items, i) && items[i].height.value == h
  {
    hide Restarts;
  }

  lemma WrongIs(items: seq<Item>, v: Verdict)
    requires items != []
    requires var k := |items| - 1;
             && v.last == LastHeight(items[..k]) && OpenHeights(items[..k], v.seen)
             && (v.snapshotHeight.Some? <==> Snapshotted(items[..k]))
    ensures var k := |items| - 1;
            var (item, restart) := (items[k], Restarts(items, k));
            && (restart <==> HasHeight(item) && item.snapshot && v.snapshotHeight.Some?)
            && (Turns(items, k) <==> HasHeight(item) && (restart || v.last != item.height))
            && Wrong(items, k)
               == (if !HasHeight(item) || restart || v.last.None? || v.last == item.height then []
                   else if item.height.value < v.last.value then [Backwards(v.last.value, item.height.value)]
                   else if item.height.value in v.seen then [Reopened(item.height.value, v.last.value)] else [])
  {
    var k := |items| - 1;
    SnapshottedStep(items);
    if HasHeight(items[k]) {
      SeenIff(items[..k], v.seen, items[k].height.value);
      assert forall i :: 0 <= i < k ==> items[..k][i] == items[i];
    }
    hide OpenHeights, Snapshotted, Restarts, Open;
  }

  lemma ReportLists(items: seq<Item>, v: Verdict)
    requires items != [] && Reports(items[..|items| - 1], v) && CheckInv(items[..|items| - 1], v)
    ensures var n := Judge(v, items[|items| - 1]);
            n.resyncs == Starts(items) && n.blocks == Turned(items) && n.violations == AllWrong(items)
  {
    var k := |items| - 1;
    WrongIs(items, v);
    JudgeAdds(v, items[k]);
    hide Judge, OpenHeights, SegmentsOrdered, Snapshotted, Restarts, Open, Turns, Wrong, HowMany, Early, AtHeight;
  }

  /** The checker's whole report: how many frames came, how many increments before the first snapshot and
      that snapshot's height, how many frames of each height, every change of height in order, every
      restart, and each frame that is wrong. */
  lemma {:induction false} ReportExactly(items: seq<Item>)
    ensures Reports(items, Judged(items))
  {
    if items != [] {
      ReportExactly(items[..|items| - 1]);
      CheckState(items[..|items| - 1]);
      hide Reports, CheckInv, Judge;
      ReportCounts(items, Judged(items[..|items| - 1]));
      ReportLists(items, Judged(items[..|items| - 1]));
      ReportedNext(items, Judge(Judged(items[..|items| - 1]), items[|items| - 1]));
    }
  }

  lemma ReportedNext(items: seq<Item>, n: Verdict)
    requires n.msgs == HowMany(items) && n.updatesBeforeSnapshot == Early(items)
    requires n.snapshotHeight == FirstSnapshot(items) && n.last == LastHeight(items)
    requires forall h :: CountOf(n.counts, h) == AtHeight(items, h)
    requires n.resyncs == Starts(items) && n.blocks == Turned(items) && n.violations == AllWrong(items)
    ensures Reports(items, n)
  {
  }
}
