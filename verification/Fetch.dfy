/** Which sources are asked for a late joiner's snapshot, and in what order. */
module Fetch {
  import opened Wire
  import opened Stats

  /** A source as the fetch sees it: whether it is connected, and how long it has been idle, if it has
      ever delivered. */
  datatype Standing = Standing(connected: bool, idle: Option<nat>)

  /** A source that never delivered ranks behind every one that did. */
  predicate Fresher(a: Option<nat>, b: Option<nat>) {
    a.Some? && (b.None? || a.value < b.value)
  }

  function IdleOf(w: seq<Standing>, s: nat): Option<nat> {
    if s < |w| then w[s].idle else None
  }

  /** Sorting by idle time keeps sources that tie in their order. */
  function Insert(w: seq<Standing>, ranked: seq<nat>, s: nat): seq<nat> {
    if ranked == [] then [s]
    else
      var k := |ranked| - 1;
      if Fresher(IdleOf(w, s), IdleOf(w, ranked[k])) then Insert(w, ranked[..k], s) + [ranked[k]]
      else ranked + [s]
  }

  function Ranked(w: seq<Standing>, n: nat): seq<nat>
    requires n <= |w|
  {
    if n == 0 then []
    else
      var before := Ranked(w, n - 1);
      if w[n - 1].connected then Insert(w, before, n - 1) else before
  }

  predicate Timely(idle: Option<nat>, limit: nat) {
    idle.Some? && idle.value <= limit
  }

  function FreshOnly(w: seq<Standing>, ranked: seq<nat>, limit: nat): seq<nat> {
    if ranked == [] then []
    else
      var k := |ranked| - 1;
      FreshOnly(w, ranked[..k], limit) + if Timely(IdleOf(w, ranked[k]), limit) then [ranked[k]] else []
  }

  /** The fresh sources when there are any, and otherwise all that are connected. */
  function Candidates(w: seq<Standing>, limit: nat): seq<nat> {
    var ranked := Ranked(w, |w|);
    var recent := FreshOnly(w, ranked, limit);
    if recent == [] then ranked else recent
  }

  /** What each source would answer: a snapshot and its height, or nothing before the timeout. */
  type Answers = nat -> Option<(nat, Payload)>

  /** The first candidate that answers. */
  function FirstAnswer(candidates: seq<nat>, answers: Answers): Option<Msg> {
    if candidates == [] then None
    else
      match answers(candidates[0])
      case Some((height, payload)) => Some(Msg(candidates[0], Snapshot(height), payload))
      case None => FirstAnswer(candidates[1..], answers)
  }

  // ---------- What the ranking means ----------

  ghost predicate InOrder(w: seq<Standing>, r: seq<nat>) {
    forall i, j :: 0 <= i < j < |r| ==> !Fresher(IdleOf(w, r[j]), IdleOf(w, r[i]))
  }

  lemma {:induction false} InsertExactly(w: seq<Standing>, r: seq<nat>, s: nat)
    requires InOrder(w, r)
    ensures InOrder(w, Insert(w, r, s))
    ensures forall x :: x in Insert(w, r, s) <==> x in r || x == s
  {
    if r != [] {
      var k := |r| - 1;
      assert r == r[..k] + [r[k]];
      InsertExactly(w, r[..k], s);
      if Fresher(IdleOf(w, s), IdleOf(w, r[k])) {
        var head := Insert(w, r[..k], s);
        forall i | 0 <= i < |head| ensures !Fresher(IdleOf(w, r[k]), IdleOf(w, head[i])) {
          if head[i] != s {
            assert head[i] in head && head[i] in r[..k];
            var j :| 0 <= j < k && r[j] == head[i];
          }
        }
        AppendInOrder(w, head, r[k]);
      } else {
        forall i | 0 <= i < |r| ensures !Fresher(IdleOf(w, s), IdleOf(w, r[i])) {
        }
        AppendInOrder(w, r, s);
      }
    }
  }

  lemma AppendInOrder(w: seq<Standing>, r: seq<nat>, s: nat)
    requires InOrder(w, r)
    requires forall i :: 0 <= i < |r| ==> !Fresher(IdleOf(w, s), IdleOf(w, r[i]))
    ensures InOrder(w, r + [s])
  {
    hide Fresher, IdleOf;
  }

  lemma {:induction false} RankedExactly(w: seq<Standing>, n: nat)
    requires n <= |w|
    ensures InOrder(w, Ranked(w, n))
    ensures forall s: nat :: s in Ranked(w, n) <==> s < n && w[s].connected
  {
    if n > 0 {
      RankedExactly(w, n - 1);
      if w[n - 1].connected {
        InsertExactly(w, Ranked(w, n - 1), n - 1);
      }
    }
  }

  lemma {:induction false} FreshOnlyExactly(w: seq<Standing>, r: seq<nat>, limit: nat)
    requires InOrder(w, r)
    ensures InOrder(w, FreshOnly(w, r, limit))
    ensures forall s: nat :: s in FreshOnly(w, r, limit) <==> s in r && Timely(IdleOf(w, s), limit)
  {
    if r != [] {
      var k := |r| - 1;
      assert r == r[..k] + [r[k]];
      FreshOnlyExactly(w, r[..k], limit);
      var head := FreshOnly(w, r[..k], limit);
      forall i | 0 <= i < |head| ensures !Fresher(IdleOf(w, r[k]), IdleOf(w, head[i])) {
        assert head[i] in head && head[i] in r[..k];
        var j :| 0 <= j < k && r[j] == head[i];
      }
    }
  }

  /** No source is staler than one after it, and of two that tie the earlier comes first. */
  ghost predicate Stable(w: seq<Standing>, r: seq<nat>) {
    forall i, j :: 0 <= i < j < |r| ==> Precedes(w, r[i], r[j])
  }

  ghost predicate Precedes(w: seq<Standing>, s: nat, t: nat) {
    var (a, b) := (IdleOf(w, s), IdleOf(w, t));
    (b.Some? ==> a.Some? && a.value <= b.value) && (a == b ==> s < t)
  }

  lemma {:induction false} InsertStably(w: seq<Standing>, r: seq<nat>, s: nat)
    requires InOrder(w, r) && Stable(w, r) && forall x <- r :: x < s
    ensures Stable(w, Insert(w, r, s))
  {
    if r != [] {
      var k := |r| - 1;
      assert r == r[..k] + [r[k]];
      if Fresher(IdleOf(w, s), IdleOf(w, r[k])) {
        assert forall x <- r[..k] :: x in r;
        InsertStably(w, r[..k], s);
        InsertExactly(w, r[..k], s);
        var head := Insert(w, r[..k], s);
        forall i | 0 <= i < |head| ensures Precedes(w, head[i], r[k]) {
          assert head[i] in head;
          if head[i] != s {
            var j :| 0 <= j < k && r[j] == head[i];
          }
        }
        AppendStably(w, head, r[k]);
      } else {
        forall i | 0 <= i < |r| ensures Precedes(w, r[i], s) {
          assert r[i] in r;
          assert i < k ==> Precedes(w, r[i], r[k]);
        }
        AppendStably(w, r, s);
      }
    }
  }

  lemma AppendStably(w: seq<Standing>, r: seq<nat>, s: nat)
    requires Stable(w, r) && forall i :: 0 <= i < |r| ==> Precedes(w, r[i], s)
    ensures Stable(w, r + [s])
  {
    hide Precedes;
  }

  lemma {:induction false} RankedStably(w: seq<Standing>, n: nat)
    requires n <= |w|
    ensures Stable(w, Ranked(w, n))
  {
    if n > 0 {
      RankedStably(w, n - 1);
      RankedExactly(w, n - 1);
      if w[n - 1].connected {
        InsertStably(w, Ranked(w, n - 1), n - 1);
      }
    }
  }

  lemma {:induction false} FreshOnlyStably(w: seq<Standing>, r: seq<nat>, limit: nat)
    requires Stable(w, r)
    ensures Stable(w, FreshOnly(w, r, limit))
    ensures forall s <- FreshOnly(w, r, limit) :: s in r
  {
    hide Precedes;
    if r != [] {
      var k := |r| - 1;
      FreshOnlyStably(w, r[..k], limit);
      var head := FreshOnly(w, r[..k], limit);
      forall i | 0 <= i < |head| ensures Precedes(w, head[i], r[k]) {
        assert head[i] in head && head[i] in r[..k];
        var j :| 0 <= j < k && r[j] == head[i];
      }
      AppendStably(w, head, r[k]);
    }
  }

  /** Connected, and idle for no longer than the limit; a source that never delivered is not. */
  predicate Usable(w: seq<Standing>, limit: nat, s: nat) {
    s < |w| && w[s].connected && w[s].idle.Some? && w[s].idle.value <= limit
  }

  /** Who is asked: every connected source within the limit, and when there is none of those, every
      connected source; never a staler one before a fresher one, and those that tie in the order they are
      configured in. */
  lemma CandidatesExactly(w: seq<Standing>, limit: nat)
    ensures InOrder(w, Candidates(w, limit)) && Stable(w, Candidates(w, limit))
    ensures forall s: nat :: s in Candidates(w, limit) <==>
              && s < |w| && w[s].connected
              && ((exists t: nat :: Usable(w, limit, t)) ==> Usable(w, limit, s))
  {
    var ranked := Ranked(w, |w|);
    var recent := FreshOnly(w, ranked, limit);
    CandidatesStably(w, limit);
    hide Stable;
    RankedExactly(w, |w|);
    FreshOnlyExactly(w, ranked, limit);
    assert forall t: nat :: Usable(w, limit, t) <==> t in recent;
    if recent != [] {
      assert Usable(w, limit, recent[0]);
    }
  }

  lemma CandidatesStably(w: seq<Standing>, limit: nat)
    ensures Stable(w, Candidates(w, limit))
  {
    hide Stable, Ranked, FreshOnly;
    RankedStably(w, |w|);
    FreshOnlyStably(w, Ranked(w, |w|), limit);
  }

  lemma {:induction false} FirstAnswerExactly(candidates: seq<nat>, answers: Answers)
    ensures match FirstAnswer(candidates, answers)
            case None => forall s <- candidates :: answers(s).None?
            case Some(m) =>
              exists i :: 0 <= i < |candidates| && candidates[i] == m.src
                && answers(m.src) == Some((m.ord.stamp, m.payload)) && m.ord.Snapshot?
                && forall j :: 0 <= j < i ==> answers(candidates[j]).None?
  {
    if candidates != [] && answers(candidates[0]).None? {
      FirstAnswerExactly(candidates[1..], answers);
      match FirstAnswer(candidates, answers)
      case None =>
        assert candidates == [candidates[0]] + candidates[1..];
      case Some(m) =>
        var rest := candidates[1..];
        var i :| 0 <= i < |rest| && rest[i] == m.src && forall j :: 0 <= j < i ==> answers(rest[j]).None?;
        assert candidates[i + 1] == m.src;
        forall j | 0 <= j < i + 1 ensures answers(candidates[j]).None? {
          if j > 0 {
            assert rest[j - 1] == candidates[j];
          }
        }
    }
  }

  /** Whose snapshot a client is rebuilt on: a connected source that answered, within the limit if any
      connected source is, and no strictly fresher connected source answered. Nobody's, exactly when
      no source that may be asked answers. */
  lemma RebuiltOnTheFreshest(w: seq<Standing>, limit: nat, answers: Answers)
    ensures match FirstAnswer(Candidates(w, limit), answers)
            case None =>
              forall s: nat :: s < |w| && w[s].connected && answers(s).Some? ==>
                (exists t: nat :: Usable(w, limit, t)) && !Usable(w, limit, s)
            case Some(m) =>
              && m.src < |w| && w[m.src].connected
              && m.ord.Snapshot? && answers(m.src) == Some((m.ord.stamp, m.payload))
              && ((exists t: nat :: Usable(w, limit, t)) ==> Usable(w, limit, m.src))
              && forall s: nat :: s < |w| && w[s].connected && Fresher(w[s].idle, w[m.src].idle) ==> answers(s).None?
  {
    var candidates := Candidates(w, limit);
    CandidatesExactly(w, limit);
    FirstAnswerExactly(candidates, answers);
    hide Candidates, FirstAnswer, Stable;
    match FirstAnswer(candidates, answers)
    case None =>
      forall s: nat | s < |w| && w[s].connected && answers(s).Some?
        ensures (exists t: nat :: Usable(w, limit, t)) && !Usable(w, limit, s)
      {
        assert s !in candidates;
      }
    case Some(m) =>
      var i :| 0 <= i < |candidates| && candidates[i] == m.src
               && answers(m.src) == Some((m.ord.stamp, m.payload)) && m.ord.Snapshot?
               && forall j :: 0 <= j < i ==> answers(candidates[j]).None?;
      assert m.src in candidates;
      forall s: nat | s < |w| && w[s].connected && Fresher(w[s].idle, w[m.src].idle) ensures answers(s).None? {
        assert Usable(w, limit, m.src) ==> Usable(w, limit, s);
        assert s in candidates;
        var j :| 0 <= j < |candidates| && candidates[j] == s;
        assert IdleOf(w, candidates[j]) == w[s].idle && IdleOf(w, candidates[i]) == w[m.src].idle;
      }
  }
}
