/** What is proved of the ordering modes holds of a subscription's runs: whatever clients do meanwhile, the
entry forwards what its mode forwards. */
module Bridge {
  import opened Wire
  import opened Arbiter
  import opened Entries
  import opened Streams
  import opened Epochs
  import M = Modes
  import R = Resets

  /** The frames that arrive, in order. */
  function Arrivals(evs: seq<KeyEvent>): seq<M.Arrival> {
    if evs == [] then []
    else
      var k := |evs| - 1;
      Arrivals(evs[..k]) + if evs[k].Arrive? then [M.Arrival(evs[k].msg, evs[k].now)] else []
  }

  function Msgs(out: seq<M.Arrival>): seq<Msg> {
    seq(|out|, i requires 0 <= i < |out| => out[i].msg)
  }

  /** The step meddles with the ordering: a leader is lost, the entry is dropped, or an answer moves the
      lead. */
  predicate Upsets(key: SubKey, e: Entry, ev: KeyEvent) {
    || Frees(key, e, ev)
    || Drops(e, ev)
    || (ev.Answer? && key.SingleSourced() && IsParked(e.pending, ev.client) && e.arb.leader != Some(ev.snapshot.src))
  }

  ghost predicate NothingUpsets(key: SubKey, e: Entry, evs: seq<KeyEvent>) {
    forall i :: 0 <= i < |evs| ==> !Upsets(key, Run(key, e, evs[..i]), evs[i])
  }

  /** Only arrivals, losses, drops and answers change the ordering. */
  lemma OrderingMoves(key: SubKey, e: Entry, ev: KeyEvent)
    requires !Upsets(key, e, ev)
    ensures KeyStep(key, e, ev).arb
         == if ev.Arrive? then Arbitrate(key, e.arb, ev.msg.src, ev.msg.ord, ev.now).arb else e.arb
  {
    hide Arbitrate, HeldFor, Kept, Without, WithoutPending, Removed;
  }

  lemma OutAppend(key: SubKey, run: seq<M.Arrival>, a: M.Arrival)
    ensures M.After(key, run + [a]) == M.Rule(key, M.After(key, run), a).arb
    ensures M.Out(key, run + [a])
         == M.Out(key, run) + if M.Rule(key, M.After(key, run), a).deliver then [a] else []
  {
    hide M.Rule;
    assert (run + [a])[..|run|] == run;
  }

  lemma MsgsAppend(a: seq<M.Arrival>, b: seq<M.Arrival>)
    ensures Msgs(a + b) == Msgs(a) + Msgs(b)
  {
  }

  /** One step of the entry is one step of its mode, or none. */
  lemma StepCarriesOver(key: SubKey, e: Entry, run: seq<M.Arrival>, ev: KeyEvent)
    requires !Upsets(key, e, ev) && e.arb == M.After(key, run)
    ensures var next := run + if ev.Arrive? then [M.Arrival(ev.msg, ev.now)] else [];
            && KeyStep(key, e, ev).arb == M.After(key, next)
            && Msgs(M.Out(key, next)) == Msgs(M.Out(key, run)) + Forwards(key, e, ev)
  {
    OrderingMoves(key, e, ev);
    hide KeyStep, Upsets, Arbitrate, M.Out, M.After;
    if ev.Arrive? {
      var a := M.Arrival(ev.msg, ev.now);
      OutAppend(key, run, a);
      MsgsAppend(M.Out(key, run), [a]);
      MsgsAppend(M.Out(key, run), []);
    } else {
      assert run + [] == run;
    }
  }

  /** On a run of a new entry in which nothing upsets the ordering, the entry is in the state its mode
      leaves it in, and what it forwards is what its mode forwards. */
  lemma {:induction false} ModesCarryOver(key: SubKey, evs: seq<KeyEvent>)
    requires NothingUpsets(key, EMPTY, evs)
    ensures Run(key, EMPTY, evs).arb == M.After(key, Arrivals(evs))
    ensures Forwarded(key, EMPTY, evs) == Msgs(M.Out(key, Arrivals(evs)))
  {
    hide KeyStep, Upsets, M.Out, M.After, Msgs, Forwards;
    if evs == [] {
      NothingOut(key);
    } else {
      var k := |evs| - 1;
      forall i | 0 <= i < k ensures evs[..k][..i] == evs[..i] && evs[..k][i] == evs[i] {
      }
      ModesCarryOver(key, evs[..k]);
      StepCarriesOver(key, Run(key, EMPTY, evs[..k]), Arrivals(evs[..k]), evs[k]);
    }
  }

  lemma NothingOut(key: SubKey)
    ensures Msgs(M.Out(key, [])) == [] && M.After(key, []) == FRESH
  {
  }

  /** A client that subscribes first and stays is sent exactly what the mode forwards. */
  lemma FirstClientGetsTheOutput(key: SubKey, evs: seq<KeyEvent>, c: nat)
    requires evs != [] && evs[0] == Join(c) && Leave(c) !in evs
    requires LegalRun(key, EMPTY, evs) && NothingUpsets(key, EMPTY, evs)
    ensures Stream(key, EMPTY, evs, c) == Msgs(M.Out(key, Arrivals(evs)))
  {
    hide *;
    assert evs == [Join(c)] + evs[1..];
    NeverDisturbed(key, evs, c);
    FirstHearsEverything(key, evs[1..], c);
    ModesCarryOver(key, evs);
  }

  lemma FirstHearsEverything(key: SubKey, rest: seq<KeyEvent>, c: nat)
    requires LegalRun(key, EMPTY, [Join(c)] + rest)
    requires Undisturbed(key, KeyStep(key, EMPTY, Join(c)), rest, c)
    ensures Stream(key, EMPTY, [Join(c)] + rest, c) == Forwarded(key, EMPTY, [Join(c)] + rest)
  {
    hide *;
    var e := KeyStep(key, EMPTY, Join(c));
    FirstIsAttached(key, c);
    FirstStep(key, EMPTY, Join(c), rest, c);
    LegalSplit(key, EMPTY, [Join(c)], rest);
    FirstStep(key, EMPTY, Join(c), [], c);
    NothingRuns(key, e, c);
    assert [Join(c)] + [] == [Join(c)];
    AttachedHearsEverything(key, e, rest, c);
  }

  lemma FirstIsAttached(key: SubKey, c: nat)
    ensures var e := KeyStep(key, EMPTY, Join(c));
            && e == Entry(FRESH, true, false, [c], []) && WellFormed(key, e)
            && Offers(key, EMPTY, Join(c), c) == [] && Forwards(key, EMPTY, Join(c)) == []
  {
    assert Listed(Entry(FRESH, true, false, [c], [])) == [c];
  }

  lemma NeverDisturbed(key: SubKey, evs: seq<KeyEvent>, c: nat)
    requires evs != [] && Leave(c) !in evs && NothingUpsets(key, EMPTY, evs)
    ensures Undisturbed(key, KeyStep(key, EMPTY, evs[0]), evs[1..], c)
  {
    hide KeyStep, Run, Drops;
    var rest := evs[1..];
    forall i | 0 <= i < |rest|
      ensures rest[i] != Leave(c) && !Parks(key, Run(key, KeyStep(key, EMPTY, evs[0]), rest[..i]), rest[i])
    {
      assert evs[..i + 1] == [evs[0]] + rest[..i];
      FirstStep(key, EMPTY, evs[0], rest[..i], c);
      assert !Upsets(key, Run(key, EMPTY, evs[..i + 1]), evs[i + 1]);
      assert rest[i] in evs;
    }
  }

  /** So the client of a raced channel, snapshots and all, sees one ideal stream, as long as the furthest
      source's. */
  lemma RacedClientSeesOneStream(key: SubKey, evs: seq<KeyEvent>, c: nat, messages: nat -> seq<Payload>)
    requires evs != [] && evs[0] == Join(c) && Leave(c) !in evs && !key.L2Book? && !key.L2Diff?
    requires LegalRun(key, EMPTY, evs) && NothingUpsets(key, EMPTY, evs)
    requires R.AllRaced(Arrivals(evs)) && M.Scripted(R.AsBlocks(Arrivals(evs)), messages)
    ensures var (run, out) := (R.AsBlocks(Arrivals(evs)), M.Out(key, Arrivals(evs)));
            var h := M.After(key, Arrivals(evs)).last;
            && Stream(key, EMPTY, evs, c) == Msgs(out)
            && M.NeverFalls(out) && M.OneStream(out, messages)
            && (M.AsLongAsTheFurthest(run, out, h) <==> M.NobodyWraps(run, h))
  {
    hide Stream, LegalRun, NothingUpsets, M.Out, Msgs, Arrivals, M.After, R.AsBlocks;
    FirstClientGetsTheOutput(key, evs, c);
    R.SnapshotsAndBlocksRefineOneStream(key, Arrivals(evs), messages);
  }
}
