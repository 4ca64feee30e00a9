/** Price levels, and the price-keyed diff that gives an `l2Diff` increment its meaning.

A side of a book travels as a list of levels and is held as a dictionary from price to
quantity. The node computes an increment with `DiffSide`; a client replays it with
`ApplySide`. The two are inverse to each other (`ApplyInvertsDiff`), and the increment names
exactly the prices at which the two books differ (`DiffNamesExactlyTheChanges`). */
module Books {

  datatype Level = Level(px: string, sz: string, n: nat)

  datatype Qty = Qty(sz: string, n: nat)

  type SideMap = map<string, Qty>

  /** What an increment says about one side: the levels to set and the prices to drop. */
  datatype SideDiff = SideDiff(upd: seq<Level>, del: seq<string>)

  datatype Book = Book(bids: SideMap, asks: SideMap)

  // ---------- The node's side: dictionaries and their difference ----------

  /** The dictionary of a list of levels; a repeated price keeps its last quantity. */
  function ByPx(side: seq<Level>): SideMap {
    if side == [] then map[]
    else
      var lv := side[|side| - 1];
      ByPx(side[..|side| - 1])[lv.px := Qty(lv.sz, lv.n)]
  }

  /** The prices in the order the dictionary iterates over them: that of first insertion. */
  function PxOrder(side: seq<Level>): seq<string> {
    if side == [] then []
    else
      var init := side[..|side| - 1];
      var px := side[|side| - 1].px;
      if px in ByPx(init) then PxOrder(init) else PxOrder(init) + [px]
  }

  function Changed(pxs: seq<string>, o: SideMap, n: SideMap): seq<Level>
    requires forall px <- pxs :: px in n
  {
    if pxs == [] then []
    else
      var px := pxs[|pxs| - 1];
      var init := Changed(pxs[..|pxs| - 1], o, n);
      if px in o && o[px] == n[px] then init else init + [Level(px, n[px].sz, n[px].n)]
  }

  function Gone(pxs: seq<string>, n: SideMap): seq<string> {
    if pxs == [] then []
    else
      var px := pxs[|pxs| - 1];
      var init := Gone(pxs[..|pxs| - 1], n);
      if px in n then init else init + [px]
  }

  function DiffSide(old_: seq<Level>, new_: seq<Level>): SideDiff {
    PxOrderCovers(new_);
    SideDiff(Changed(PxOrder(new_), ByPx(old_), ByPx(new_)), Gone(PxOrder(old_), ByPx(new_)))
  }

  // ---------- The client's side: replaying an increment ----------

  function Put(side: SideMap, upd: seq<Level>): SideMap {
    if upd == [] then side
    else
      var lv := upd[|upd| - 1];
      Put(side, upd[..|upd| - 1])[lv.px := Qty(lv.sz, lv.n)]
  }

  function Drop(side: SideMap, del: seq<string>): SideMap {
    if del == [] then side
    else Drop(side, del[..|del| - 1]) - {del[|del| - 1]}
  }

  function ApplySide(side: SideMap, diff: SideDiff): SideMap {
    Drop(Put(side, diff.upd), diff.del)
  }

  function ApplyBook(book: Book, bids: SideDiff, asks: SideDiff): Book {
    Book(ApplySide(book.bids, bids), ApplySide(book.asks, asks))
  }

  function BookFromLevels(bids: seq<Level>, asks: seq<Level>): Book {
    Book(ByPx(bids), ByPx(asks))
  }

  /** The dictionary a client keeps for one side and updates in place. */
  class Side {
    var levels: SideMap

    constructor (initial: SideMap)
      ensures levels == initial
    {
      levels := initial;
    }

    method Apply(diff: SideDiff)
      modifies this
      ensures levels == ApplySide(old(levels), diff)
    {
      ghost var before := levels;
      for i := 0 to |diff.upd|
        invariant levels == Put(before, diff.upd[..i])
      {
        var lv := diff.upd[i];
        levels := levels[lv.px := Qty(lv.sz, lv.n)];
        assert diff.upd[..i + 1][..i] == diff.upd[..i];
      }
      assert diff.upd[..|diff.upd|] == diff.upd;
      ghost var put := levels;
      for i := 0 to |diff.del|
        invariant levels == Drop(put, diff.del[..i])
      {
        levels := levels - {diff.del[i]};
        assert diff.del[..i + 1][..i] == diff.del[..i];
      }
      assert diff.del[..|diff.del|] == diff.del;
    }
  }

  // ---------- Proofs ----------

  ghost function Names(levels: seq<Level>): seq<string> {
    seq(|levels|, i requires 0 <= i < |levels| => levels[i].px)
  }

  ghost predicate Distinct(s: seq<string>) {
    forall i, j :: 0 <= i < j < |s| ==> s[i] != s[j]
  }

  lemma {:induction false} PxOrderCovers(side: seq<Level>)
    ensures forall px :: px in PxOrder(side) <==> px in ByPx(side)
    ensures Distinct(PxOrder(side))
  {
    if side != [] {
      PxOrderCovers(side[..|side| - 1]);
    }
  }

  lemma {:induction false} ChangedNames(pxs: seq<string>, o: SideMap, n: SideMap)
    requires forall px <- pxs :: px in n
    requires Distinct(pxs)
    ensures var names := Names(Changed(pxs, o, n));
            && Distinct(names)
            && forall px :: px in names <==> px in pxs && !(px in o && o[px] == n[px])
  {
    if pxs != [] {
      var k := |pxs| - 1;
      var px := pxs[k];
      ChangedNames(pxs[..k], o, n);
      assert pxs == pxs[..k] + [px];
      if !(px in o && o[px] == n[px]) {
        var init := Changed(pxs[..k], o, n);
        assert Names(init + [Level(px, n[px].sz, n[px].n)]) == Names(init) + [px];
      }
    }
  }

  lemma PutOne(side: SideMap, upd: seq<Level>, lv: Level)
    ensures Put(side, upd + [lv]) == Put(side, upd)[lv.px := Qty(lv.sz, lv.n)]
  {
    assert (upd + [lv])[..|upd|] == upd;
  }

  lemma {:induction false} ChangedPuts(pxs: seq<string>, o: SideMap, n: SideMap)
    requires forall px <- pxs :: px in n
    ensures forall px ::
              px in Put(o, Changed(pxs, o, n)) <==> px in o || px in pxs
    ensures forall px :: px in Put(o, Changed(pxs, o, n)) ==>
              Put(o, Changed(pxs, o, n))[px] == if px in pxs then n[px] else o[px]
  {
    if pxs != [] {
      var k := |pxs| - 1;
      var px := pxs[k];
      ChangedPuts(pxs[..k], o, n);
      assert pxs == pxs[..k] + [px];
      PutOne(o, Changed(pxs[..k], o, n), Level(px, n[px].sz, n[px].n));
      hide Put;
    }
  }

  lemma {:induction false} GoneNames(pxs: seq<string>, n: SideMap)
    requires Distinct(pxs)
    ensures Distinct(Gone(pxs, n))
    ensures forall px :: px in Gone(pxs, n) <==> px in pxs && px !in n
  {
    if pxs != [] {
      var k := |pxs| - 1;
      GoneNames(pxs[..k], n);
      assert pxs == pxs[..k] + [pxs[k]];
    }
  }

  lemma {:induction false} DropRemoves(side: SideMap, del: seq<string>)
    ensures Drop(side, del) == map px | px in side && px !in del :: side[px]
  {
    if del != [] {
      var k := |del| - 1;
      DropRemoves(side, del[..k]);
      assert del == del[..k] + [del[k]];
    }
  }

  /** Where a price is first named on a side, or the length of the side. */
  function FirstAt(side: seq<Level>, px: string): (r: nat)
    ensures r <= |side|
    ensures r < |side| ==> side[r].px == px
    ensures forall i :: 0 <= i < r ==> side[i].px != px
  {
    if side == [] then 0
    else
      var init := FirstAt(side[..|side| - 1], px);
      if init < |side| - 1 || side[|side| - 1].px == px then init else |side|
  }

  /** The prices are all on the side, in the order it first names them. */
  ghost predicate InOrderOf(side: seq<Level>, pxs: seq<string>) {
    && (forall px <- pxs :: FirstAt(side, px) < |side|)
    && forall i, j :: 0 <= i < j < |pxs| ==> FirstAt(side, pxs[i]) < FirstAt(side, pxs[j])
  }

  lemma {:induction false} PxOrderInOrder(side: seq<Level>)
    ensures InOrderOf(side, PxOrder(side))
  {
    if side != [] {
      var init, px := side[..|side| - 1], side[|side| - 1].px;
      PxOrderInOrder(init);
      if px !in ByPx(init) {
        NotNamed(init, px);
      }
      hide ByPx;
      OneMoreLevel(side, PxOrder(init), px);
    }
  }

  /** A further level keeps the order, and goes last when its price is new. */
  lemma OneMoreLevel(side: seq<Level>, pxs: seq<string>, px: string)
    requires side != [] && side[|side| - 1].px == px && InOrderOf(side[..|side| - 1], pxs)
    ensures InOrderOf(side, pxs)
    ensures FirstAt(side[..|side| - 1], px) == |side| - 1 ==> InOrderOf(side, pxs + [px])
  {
    var init := side[..|side| - 1];
    assert FirstAt(side, px) == FirstAt(init, px);
    forall x | x in pxs ensures FirstAt(side, x) == FirstAt(init, x) < |init| {
    }
    hide FirstAt;
  }

  lemma {:induction false} NotNamed(side: seq<Level>, px: string)
    requires px !in ByPx(side)
    ensures FirstAt(side, px) == |side|
  {
    if side != [] {
      NotNamed(side[..|side| - 1], px);
    }
  }

  lemma {:induction false} ChangedInOrder(pxs: seq<string>, o: SideMap, n: SideMap, side: seq<Level>)
    requires (forall px <- pxs :: px in n) && InOrderOf(side, pxs)
    ensures InOrderOf(side, Names(Changed(pxs, o, n)))
    ensures forall px <- Names(Changed(pxs, o, n)) :: px in pxs
  {
    hide FirstAt;
    if pxs != [] {
      var k := |pxs| - 1;
      var px := pxs[k];
      ChangedInOrder(pxs[..k], o, n, side);
      var init := Changed(pxs[..k], o, n);
      if !(px in o && o[px] == n[px]) {
        assert Names(init + [Level(px, n[px].sz, n[px].n)]) == Names(init) + [px];
        LastInOrder(side, pxs[..k], Names(init), px);
      }
    }
  }

  lemma LastInOrder(side: seq<Level>, pxs: seq<string>, names: seq<string>, px: string)
    requires InOrderOf(side, pxs + [px]) && InOrderOf(side, names) && forall x <- names :: x in pxs
    ensures InOrderOf(side, names + [px])
  {
    hide FirstAt;
    assert (pxs + [px])[|pxs|] == px;
    forall i | 0 <= i < |names| ensures FirstAt(side, names[i]) < FirstAt(side, px) {
      assert names[i] in names;
      var j :| 0 <= j < |pxs| && pxs[j] == names[i];
      assert (pxs + [px])[j] == names[i];
    }
  }

  lemma {:induction false} GoneInOrder(pxs: seq<string>, n: SideMap, side: seq<Level>)
    requires InOrderOf(side, pxs)
    ensures InOrderOf(side, Gone(pxs, n))
    ensures forall px <- Gone(pxs, n) :: px in pxs
  {
    hide FirstAt;
    if pxs != [] {
      var k := |pxs| - 1;
      GoneInOrder(pxs[..k], n, side);
      if pxs[k] !in n {
        assert pxs == pxs[..k] + [pxs[k]];
        LastInOrder(side, pxs[..k], Gone(pxs[..k], n), pxs[k]);
      }
    }
  }

  /** An increment sets prices in the order the new side first names them, and drops prices in the order the
      old one does. */
  lemma DiffKeepsTheOrder(old_: seq<Level>, new_: seq<Level>)
    ensures var d := DiffSide(old_, new_); InOrderOf(new_, Names(d.upd)) && InOrderOf(old_, d.del)
  {
    hide FirstAt, InOrderOf, Changed, Gone, ByPx, PxOrder, Names;
    PxOrderCovers(new_);
    PxOrderInOrder(new_);
    PxOrderInOrder(old_);
    ChangedInOrder(PxOrder(new_), ByPx(old_), ByPx(new_), new_);
    GoneInOrder(PxOrder(old_), ByPx(new_), old_);
  }

  /** The dictionary has a level's price, with the quantity of the last level that names it. */
  lemma {:induction false} ByPxKeepsTheLast(side: seq<Level>, px: string)
    ensures px in ByPx(side) <==> exists i :: 0 <= i < |side| && side[i].px == px
    ensures px in ByPx(side) ==>
              exists i :: 0 <= i < |side| && side[i].px == px && ByPx(side)[px] == Qty(side[i].sz, side[i].n)
                          && forall j :: i < j < |side| ==> side[j].px != px
  {
    if side != [] {
      var k := |side| - 1;
      ByPxKeepsTheLast(side[..k], px);
      if side[k].px == px {
        assert side[k].px == px && ByPx(side)[px] == Qty(side[k].sz, side[k].n);
      } else if px in ByPx(side[..k]) {
        var i :| 0 <= i < k && side[..k][i].px == px && ByPx(side[..k])[px] == Qty(side[..k][i].sz, side[..k][i].n)
                 && forall j :: i < j < k ==> side[..k][j].px != px;
        assert side[i].px == px;
        forall j | i < j < |side| ensures side[j].px != px {
          assert j < k ==> side[..k][j] == side[j];
        }
      }
    }
  }

  lemma {:induction false} PutOverrides(side: SideMap, upd: seq<Level>)
    ensures Put(side, upd) == side + ByPx(upd)
  {
    if upd != [] {
      PutOverrides(side, upd[..|upd| - 1]);
    }
  }

  /** Replaying any increment: the levels it sets override what the side had, the last one for each price,
      and the prices it drops are gone, even those it set. */
  lemma AppliedExactly(side: SideMap, diff: SideDiff)
    ensures ApplySide(side, diff) == (side + ByPx(diff.upd)) - (set px <- diff.del)
  {
    PutOverrides(side, diff.upd);
    DropRemoves(side + ByPx(diff.upd), diff.del);
  }

  /** Replaying the diff of two books on the first of them gives the second, for any two lists
      of levels, repeated prices included. */
  lemma ApplyInvertsDiff(before: seq<Level>, after: seq<Level>)
    ensures ApplySide(ByPx(before), DiffSide(before, after)) == ByPx(after)
  {
    var o, n := ByPx(before), ByPx(after);
    PxOrderCovers(before);
    PxOrderCovers(after);
    ChangedPuts(PxOrder(after), o, n);
    GoneNames(PxOrder(before), n);
    hide ByPx, PxOrder, Changed, Gone, Put, Drop, Names, Distinct;
    var put, gone := Put(o, Changed(PxOrder(after), o, n)), Gone(PxOrder(before), n);
    DropRemoves(put, gone);
    Survive(put, gone, o, n);
  }

  lemma Survive(put: SideMap, gone: seq<string>, o: SideMap, n: SideMap)
    requires forall px :: px in put <==> px in o || px in n
    requires forall px <- put :: put[px] == (if px in n then n[px] else o[px])
    requires forall px :: px in gone <==> px in o && px !in n
    ensures (map px | px in put && px !in gone :: put[px]) == n
  {
  }

  /** The increment is as small as it can be: it sets exactly the prices whose quantity is new or
      different, drops exactly those that vanished, and names none of them twice. */
  lemma DiffNamesExactlyTheChanges(before: seq<Level>, after: seq<Level>)
    ensures var d, o, n := DiffSide(before, after), ByPx(before), ByPx(after);
            && Distinct(Names(d.upd) + d.del)
            && (forall px :: px in Names(d.upd) <==> px in n && !(px in o && o[px] == n[px]))
            && (forall px :: px in d.del <==> px in o && px !in n)
  {
    var d, o, n := DiffSide(before, after), ByPx(before), ByPx(after);
    PxOrderCovers(before);
    PxOrderCovers(after);
    ChangedNames(PxOrder(after), o, n);
    GoneNames(PxOrder(before), n);
    DistinctAppend(Names(d.upd), d.del);
  }

  lemma DistinctAppend(a: seq<string>, b: seq<string>)
    requires Distinct(a) && Distinct(b)
    requires forall px <- a :: px !in b
    ensures Distinct(a + b)
  {
    forall i, j | 0 <= i < j < |a + b|
      ensures (a + b)[i] != (a + b)[j]
    {
      if i < |a| <= j {
        assert a[i] in a && b[j - |a|] in b;
      }
    }
  }

  /** Whether two dictionaries say the same about one price. */
  ghost predicate Agree(a: SideMap, b: SideMap, px: string) {
    (px in a <==> px in b) && (px in a ==> a[px] == b[px])
  }

  /** An increment belongs to the book it was computed from. Laid on any other book it still
      arrives at the node's new book exactly when that book agreed with the node's old one at
      every price the node did not touch. */
  lemma ForeignDiffLandsIff(before: seq<Level>, after: seq<Level>, other: SideMap)
    ensures ApplySide(other, DiffSide(before, after)) == ByPx(after)
       <==> forall px :: Agree(ByPx(before), ByPx(after), px) ==> Agree(other, ByPx(after), px)
  {
    var d, o, n := DiffSide(before, after), ByPx(before), ByPx(after);
    PxOrderCovers(before);
    PxOrderCovers(after);
    DiffNamesExactlyTheChanges(before, after);
    var put := Put(other, d.upd);
    var result := ApplySide(other, d);
    DropRemoves(put, d.del);
    forall px
      ensures Agree(result, n, px) <==> (Agree(o, n, px) ==> Agree(other, n, px))
    {
      ForeignDiffAt(before, after, other, px);
    }
    if forall px :: Agree(result, n, px) {
      assert result.Keys == n.Keys by {
        forall px ensures px in result <==> px in n { assert Agree(result, n, px); }
      }
      forall px | px in result ensures result[px] == n[px] { assert Agree(result, n, px); }
      assert result == n;
    }
  }

  lemma ForeignDiffAt(before: seq<Level>, after: seq<Level>, other: SideMap, px: string)
    ensures var o, n := ByPx(before), ByPx(after);
            Agree(ApplySide(other, DiffSide(before, after)), n, px)
            <==> (Agree(o, n, px) ==> Agree(other, n, px))
  {
    var d, o, n := DiffSide(before, after), ByPx(before), ByPx(after);
    DiffNamesExactlyTheChanges(before, after);
    PxOrderCovers(after);
    DropRemoves(Put(other, d.upd), d.del);
    if px in Names(d.upd) {
      PutSets(other, PxOrder(after), o, n, px);
    } else {
      PutKeeps(other, d.upd, px);
    }
  }

  lemma {:induction false} PutSets(side: SideMap, pxs: seq<string>, o: SideMap, n: SideMap, px: string)
    requires forall q <- pxs :: q in n
    requires px in Names(Changed(pxs, o, n))
    ensures px in Put(side, Changed(pxs, o, n)) && px in n && Put(side, Changed(pxs, o, n))[px] == n[px]
  {
    var k := |pxs| - 1;
    var init := Changed(pxs[..k], o, n);
    if pxs[k] in o && o[pxs[k]] == n[pxs[k]] {
      PutSets(side, pxs[..k], o, n, px);
    } else {
      var lv := Level(pxs[k], n[pxs[k]].sz, n[pxs[k]].n);
      assert (init + [lv])[..|init|] == init;
      assert Names(init + [lv]) == Names(init) + [lv.px];
      if px != lv.px {
        PutSets(side, pxs[..k], o, n, px);
      }
    }
  }

  lemma {:induction false} PutKeeps(side: SideMap, upd: seq<Level>, px: string)
    requires px !in Names(upd)
    ensures px in Put(side, upd) <==> px in side
    ensures px in side ==> Put(side, upd)[px] == side[px]
  {
    if upd != [] {
      var k := |upd| - 1;
      assert Names(upd) == Names(upd[..k]) + [upd[k].px];
      PutKeeps(side, upd[..k], px);
    }
  }
}
