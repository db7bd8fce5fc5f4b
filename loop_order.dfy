/** The order in which the extraction loops report their entries, stated with
    the positions of the keys in the index lists: shipments in plant, center,
    drug, week order, and inventory, shortage and waste entries in center,
    drug, week order. */
module LoopOrder {
  import opened Seqs
  import opened Records
  import opened Formulation
  import opened Extraction

  /** `u` comes before `v` in the list `s`. */
  predicate Before<T(==)>(s: seq<T>, u: T, v: T) {
    u in s && v in s && IndexOf(s, u) < IndexOf(s, v)
  }

  /** Lexicographic order on cells: center, then drug, then week. */
  predicate CellLess(cs: seq<Center>, ds: seq<Drug>, ws: seq<Week>, x: CellKey, y: CellKey) {
    Before(cs, x.0, y.0) || (x.0 == y.0 && DrugWeekLess(ds, ws, x.1, x.2, y.1, y.2))
  }

  predicate DrugWeekLess(ds: seq<Drug>, ws: seq<Week>, k: Drug, t: Week, k': Drug, t': Week) {
    Before(ds, k, k') || (k == k' && Before(ws, t, t'))
  }

  /** Lexicographic order on shipment keys: plant, then center, drug, week. */
  predicate ShipLess(ps: seq<Plant>, cs: seq<Center>, ds: seq<Drug>, ws: seq<Week>, x: ShipKey, y: ShipKey) {
    Before(ps, x.0, y.0) || (x.0 == y.0 && CellLess(cs, ds, ws, (x.1, x.2, x.3), (y.1, y.2, y.3)))
  }

  /** `s` is the first `|s|` elements of the repeat-free list `whole`. */
  predicate PrefixOf<T(==)>(s: seq<T>, whole: seq<T>) {
    |s| <= |whole| && whole[..|s|] == s && NoDups(whole)
  }

  /** Within a repeat-free list, an element of a prefix comes before the
      element just after that prefix. */
  lemma BeforeNext<T>(init: seq<T>, whole: seq<T>, x: T)
    requires |init| < |whole| && whole[..|init|] == init && NoDups(whole) && x in init
    ensures Before(whole, x, whole[|init|])
  {
    var m :| 0 <= m < |init| && init[m] == x;
    assert whole[m] == x;
    PositionInRepeatFree(whole, |init|);
  }

  lemma PositionInRepeatFree<T>(s: seq<T>, m: nat)
    requires NoDups(s) && m < |s|
    ensures IndexOf(s, s[m]) == m
  {
  }

  lemma PrefixStep<T>(s: seq<T>, whole: seq<T>)
    requires s != [] && PrefixOf(s, whole)
    ensures PrefixOf(s[..|s| - 1], whole) && s[|s| - 1] == whole[|s| - 1]
  {
    assert whole[..|s| - 1] == whole[..|s|][..|s| - 1];
  }

  // ---------------------------------------------------------------------------
  // Shipment listings

  /** The orders each level of the shipment loops produces. */
  predicate WeeksAscend(r: seq<ShipKey>, ws: seq<Week>) {
    forall a, b :: 0 <= a < b < |r| ==> Before(ws, r[a].3, r[b].3)
  }

  predicate DrugsThenWeeksAscend(r: seq<ShipKey>, ds: seq<Drug>, ws: seq<Week>) {
    forall a, b :: 0 <= a < b < |r| ==> DrugWeekLess(ds, ws, r[a].2, r[a].3, r[b].2, r[b].3)
  }

  predicate CentersThenDrugsAscend(r: seq<ShipKey>, cs: seq<Center>, ds: seq<Drug>, ws: seq<Week>) {
    forall a, b :: 0 <= a < b < |r| ==> CellLess(cs, ds, ws, (r[a].1, r[a].2, r[a].3), (r[b].1, r[b].2, r[b].3))
  }

  predicate ShipsAscend(r: seq<ShipKey>, ps: seq<Plant>, cs: seq<Center>, ds: seq<Drug>, ws: seq<Week>) {
    forall a, b :: 0 <= a < b < |r| ==> ShipLess(ps, cs, ds, ws, r[a], r[b])
  }

  lemma {:induction false} WeekShipKeysOrdered(i: Plant, j: Center, k: Drug, ws: seq<Week>, whole: seq<Week>)
    requires PrefixOf(ws, whole)
    ensures WeeksAscend(WeekShipKeys(i, j, k, ws), whole)
  {
    if ws != [] {
      var init, t := ws[..|ws| - 1], ws[|ws| - 1];
      assert ws == init + [t];
      PrefixStep(ws, whole);
      WeekShipKeysOrdered(i, j, k, init, whole);
      WeekShipKeysMembers(i, j, k, init);
      var r0, r := WeekShipKeys(i, j, k, init), WeekShipKeys(i, j, k, ws);
      assert WeeksAscend(r0, whole);
      assert r == r0 + [(i, j, k, t)];
      forall a, b | 0 <= a < b < |r| ensures Before(whole, r[a].3, r[b].3) {
        assert r[a] == r0[a] && r0[a] in r0;
        if b == |r0| {
          assert r[a].3 in init;
          BeforeNext(init, whole, r[a].3);
          assert r[b].3 == t;
          assert t == whole[|init|];
        } else {
          assert r[b] == r0[b];
          assert Before(whole, r0[a].3, r0[b].3);
        }
      }
    }
  }

  lemma {:induction false} DrugShipKeysOrdered(i: Plant, j: Center, ds: seq<Drug>, ws: seq<Week>, whole: seq<Drug>)
    requires PrefixOf(ds, whole) && NoDups(ws)
    ensures DrugsThenWeeksAscend(DrugShipKeys(i, j, ds, ws), whole, ws)
  {
    if ds != [] {
      var init, k := ds[..|ds| - 1], ds[|ds| - 1];
      assert ds == init + [k];
      PrefixStep(ds, whole);
      assert PrefixOf(ws, ws);
      DrugShipKeysOrdered(i, j, init, ws, whole);
      WeekShipKeysOrdered(i, j, k, ws, ws);
      DrugShipKeysMembers(i, j, init, ws);
      WeekShipKeysMembers(i, j, k, ws);
      var r0, r1 := DrugShipKeys(i, j, init, ws), WeekShipKeys(i, j, k, ws);
      assert DrugsThenWeeksAscend(r0, whole, ws) && WeeksAscend(r1, ws);
      assert DrugShipKeys(i, j, ds, ws) == r0 + r1;
      forall x, y | x in r0 && y in r1 ensures Before(whole, x.2, y.2) {
        BeforeNext(init, whole, x.2);
      }
      DrugBlocksJoin(r0, r1, whole, ws, k);
    }
  }

  /** A block of shipments of one later drug, in ascending weeks, may follow
      shipments in drug and week order. */
  lemma DrugBlocksJoin(r0: seq<ShipKey>, r1: seq<ShipKey>, whole: seq<Drug>, ws: seq<Week>, k: Drug)
    requires DrugsThenWeeksAscend(r0, whole, ws) && WeeksAscend(r1, ws)
    requires forall y :: y in r1 ==> y.2 == k
    requires forall x, y :: x in r0 && y in r1 ==> Before(whole, x.2, y.2)
    ensures DrugsThenWeeksAscend(r0 + r1, whole, ws)
  {
    var r := r0 + r1;
    forall a, b | 0 <= a < b < |r| ensures DrugWeekLess(whole, ws, r[a].2, r[a].3, r[b].2, r[b].3) {
      if b < |r0| {
        assert r[a] == r0[a] && r[b] == r0[b];
      } else if a < |r0| {
        assert r[a] == r0[a] && r0[a] in r0;
        assert r[b] == r1[b - |r0|] && r1[b - |r0|] in r1;
      } else {
        assert r[a] == r1[a - |r0|] && r1[a - |r0|] in r1;
        assert r[b] == r1[b - |r0|] && r1[b - |r0|] in r1;
      }
    }
  }

  lemma {:induction false} CenterShipKeysOrdered(i: Plant, cs: seq<Center>, ds: seq<Drug>, ws: seq<Week>, whole: seq<Center>)
    requires PrefixOf(cs, whole) && NoDups(ds) && NoDups(ws)
    ensures CentersThenDrugsAscend(CenterShipKeys(i, cs, ds, ws), whole, ds, ws)
  {
    if cs != [] {
      var init, j := cs[..|cs| - 1], cs[|cs| - 1];
      assert cs == init + [j];
      PrefixStep(cs, whole);
      assert PrefixOf(ds, ds);
      CenterShipKeysOrdered(i, init, ds, ws, whole);
      DrugShipKeysOrdered(i, j, ds, ws, ds);
      CenterShipKeysMembers(i, init, ds, ws);
      DrugShipKeysMembers(i, j, ds, ws);
      var r0, r1 := CenterShipKeys(i, init, ds, ws), DrugShipKeys(i, j, ds, ws);
      assert CentersThenDrugsAscend(r0, whole, ds, ws) && DrugsThenWeeksAscend(r1, ds, ws);
      assert CenterShipKeys(i, cs, ds, ws) == r0 + r1;
      forall x, y | x in r0 && y in r1 ensures Before(whole, x.1, y.1) {
        BeforeNext(init, whole, x.1);
      }
      CenterShipBlocksJoin(r0, r1, whole, ds, ws, j);
    }
  }

  /** A block of shipments to one later center, in drug and week order, may
      follow shipments in center, drug and week order. */
  lemma CenterShipBlocksJoin(r0: seq<ShipKey>, r1: seq<ShipKey>, whole: seq<Center>, ds: seq<Drug>, ws: seq<Week>, j: Center)
    requires CentersThenDrugsAscend(r0, whole, ds, ws) && DrugsThenWeeksAscend(r1, ds, ws)
    requires forall y :: y in r1 ==> y.1 == j
    requires forall x, y :: x in r0 && y in r1 ==> Before(whole, x.1, y.1)
    ensures CentersThenDrugsAscend(r0 + r1, whole, ds, ws)
  {
    var r := r0 + r1;
    forall a, b | 0 <= a < b < |r|
      ensures CellLess(whole, ds, ws, (r[a].1, r[a].2, r[a].3), (r[b].1, r[b].2, r[b].3))
    {
      if b < |r0| {
        assert r[a] == r0[a] && r[b] == r0[b];
      } else if a < |r0| {
        assert r[a] == r0[a] && r0[a] in r0;
        assert r[b] == r1[b - |r0|] && r1[b - |r0|] in r1;
      } else {
        assert r[a] == r1[a - |r0|] && r1[a - |r0|] in r1;
        assert r[b] == r1[b - |r0|] && r1[b - |r0|] in r1;
      }
    }
  }

  lemma {:induction false} ShipKeysOrdered(ps: seq<Plant>, cs: seq<Center>, ds: seq<Drug>, ws: seq<Week>, whole: seq<Plant>)
    requires PrefixOf(ps, whole) && NoDups(cs) && NoDups(ds) && NoDups(ws)
    ensures ShipsAscend(ShipKeys(ps, cs, ds, ws), whole, cs, ds, ws)
  {
    if ps != [] {
      var init, i := ps[..|ps| - 1], ps[|ps| - 1];
      assert ps == init + [i];
      PrefixStep(ps, whole);
      assert PrefixOf(cs, cs);
      ShipKeysOrdered(init, cs, ds, ws, whole);
      CenterShipKeysOrdered(i, cs, ds, ws, cs);
      ShipKeysMembers(init, cs, ds, ws);
      CenterShipKeysMembers(i, cs, ds, ws);
      var r0, r1 := ShipKeys(init, cs, ds, ws), CenterShipKeys(i, cs, ds, ws);
      assert ShipsAscend(r0, whole, cs, ds, ws) && CentersThenDrugsAscend(r1, cs, ds, ws);
      assert ShipKeys(ps, cs, ds, ws) == r0 + r1;
      forall x, y | x in r0 && y in r1 ensures Before(whole, x.0, y.0) {
        BeforeNext(init, whole, x.0);
      }
      PlantShipBlocksJoin(r0, r1, whole, cs, ds, ws, i);
    }
  }

  /** A block of shipments from one later plant, in center, drug and week
      order, may follow shipments in plant, center, drug and week order. */
  lemma PlantShipBlocksJoin(r0: seq<ShipKey>, r1: seq<ShipKey>, whole: seq<Plant>, cs: seq<Center>, ds: seq<Drug>, ws: seq<Week>, i: Plant)
    requires ShipsAscend(r0, whole, cs, ds, ws) && CentersThenDrugsAscend(r1, cs, ds, ws)
    requires forall y :: y in r1 ==> y.0 == i
    requires forall x, y :: x in r0 && y in r1 ==> Before(whole, x.0, y.0)
    ensures ShipsAscend(r0 + r1, whole, cs, ds, ws)
  {
    var r := r0 + r1;
    forall a, b | 0 <= a < b < |r| ensures ShipLess(whole, cs, ds, ws, r[a], r[b]) {
      if b < |r0| {
        assert r[a] == r0[a] && r[b] == r0[b];
      } else if a < |r0| {
        assert r[a] == r0[a] && r0[a] in r0;
        assert r[b] == r1[b - |r0|] && r1[b - |r0|] in r1;
      } else {
        assert r[a] == r1[a - |r0|] && r1[a - |r0|] in r1;
        assert r[b] == r1[b - |r0|] && r1[b - |r0|] in r1;
      }
    }
  }

  // ---------------------------------------------------------------------------
  // Cell listings

  /** The orders each level of the cell loops produces. */
  predicate CellWeeksAscend(r: seq<CellKey>, ws: seq<Week>) {
    forall a, b :: 0 <= a < b < |r| ==> Before(ws, r[a].2, r[b].2)
  }

  predicate CellDrugsThenWeeksAscend(r: seq<CellKey>, ds: seq<Drug>, ws: seq<Week>) {
    forall a, b :: 0 <= a < b < |r| ==> DrugWeekLess(ds, ws, r[a].1, r[a].2, r[b].1, r[b].2)
  }

  predicate CellsAscend(r: seq<CellKey>, cs: seq<Center>, ds: seq<Drug>, ws: seq<Week>) {
    forall a, b :: 0 <= a < b < |r| ==> CellLess(cs, ds, ws, r[a], r[b])
  }

  lemma {:induction false} WeekCellKeysOrdered(j: Center, k: Drug, ws: seq<Week>, whole: seq<Week>)
    requires PrefixOf(ws, whole)
    ensures CellWeeksAscend(WeekCellKeys(j, k, ws), whole)
  {
    if ws != [] {
      var init, t := ws[..|ws| - 1], ws[|ws| - 1];
      assert ws == init + [t];
      PrefixStep(ws, whole);
      WeekCellKeysOrdered(j, k, init, whole);
      WeekCellKeysMembers(j, k, init);
      var r0, r := WeekCellKeys(j, k, init), WeekCellKeys(j, k, ws);
      assert CellWeeksAscend(r0, whole);
      assert r == r0 + [(j, k, t)];
      forall a, b | 0 <= a < b < |r| ensures Before(whole, r[a].2, r[b].2) {
        assert r[a] == r0[a] && r0[a] in r0;
        if b == |r0| {
          BeforeNext(init, whole, r[a].2);
        } else {
          assert r[b] == r0[b];
        }
      }
    }
  }

  lemma {:induction false} DrugCellKeysOrdered(j: Center, ds: seq<Drug>, ws: seq<Week>, whole: seq<Drug>)
    requires PrefixOf(ds, whole) && NoDups(ws)
    ensures CellDrugsThenWeeksAscend(DrugCellKeys(j, ds, ws), whole, ws)
  {
    if ds != [] {
      var init, k := ds[..|ds| - 1], ds[|ds| - 1];
      assert ds == init + [k];
      PrefixStep(ds, whole);
      assert PrefixOf(ws, ws);
      DrugCellKeysOrdered(j, init, ws, whole);
      WeekCellKeysOrdered(j, k, ws, ws);
      DrugCellKeysMembers(j, init, ws);
      WeekCellKeysMembers(j, k, ws);
      var r0, r1 := DrugCellKeys(j, init, ws), WeekCellKeys(j, k, ws);
      assert CellDrugsThenWeeksAscend(r0, whole, ws) && CellWeeksAscend(r1, ws);
      assert DrugCellKeys(j, ds, ws) == r0 + r1;
      forall x, y | x in r0 && y in r1 ensures Before(whole, x.1, y.1) {
        BeforeNext(init, whole, x.1);
      }
      DrugCellBlocksJoin(r0, r1, whole, ws, k);
    }
  }

  /** A block of cells of one later drug, in ascending weeks, may follow cells
      in drug and week order. */
  lemma DrugCellBlocksJoin(r0: seq<CellKey>, r1: seq<CellKey>, whole: seq<Drug>, ws: seq<Week>, k: Drug)
    requires CellDrugsThenWeeksAscend(r0, whole, ws) && CellWeeksAscend(r1, ws)
    requires forall y :: y in r1 ==> y.1 == k
    requires forall x, y :: x in r0 && y in r1 ==> Before(whole, x.1, y.1)
    ensures CellDrugsThenWeeksAscend(r0 + r1, whole, ws)
  {
    var r := r0 + r1;
    forall a, b | 0 <= a < b < |r| ensures DrugWeekLess(whole, ws, r[a].1, r[a].2, r[b].1, r[b].2) {
      if b < |r0| {
        assert r[a] == r0[a] && r[b] == r0[b];
      } else if a < |r0| {
        assert r[a] == r0[a] && r0[a] in r0;
        assert r[b] == r1[b - |r0|] && r1[b - |r0|] in r1;
      } else {
        assert r[a] == r1[a - |r0|] && r1[a - |r0|] in r1;
        assert r[b] == r1[b - |r0|] && r1[b - |r0|] in r1;
      }
    }
  }

  lemma {:induction false} CellKeysOrdered(cs: seq<Center>, ds: seq<Drug>, ws: seq<Week>, whole: seq<Center>)
    requires PrefixOf(cs, whole) && NoDups(ds) && NoDups(ws)
    ensures CellsAscend(CellKeys(cs, ds, ws), whole, ds, ws)
  {
    if cs != [] {
      var init, j := cs[..|cs| - 1], cs[|cs| - 1];
      assert cs == init + [j];
      PrefixStep(cs, whole);
      assert PrefixOf(ds, ds);
      CellKeysOrdered(init, ds, ws, whole);
      DrugCellKeysOrdered(j, ds, ws, ds);
      CellKeysMembers(init, ds, ws);
      DrugCellKeysMembers(j, ds, ws);
      var r0, r1 := CellKeys(init, ds, ws), DrugCellKeys(j, ds, ws);
      assert CellsAscend(r0, whole, ds, ws) && CellDrugsThenWeeksAscend(r1, ds, ws);
      assert CellKeys(cs, ds, ws) == r0 + r1;
      forall x, y | x in r0 && y in r1 ensures Before(whole, x.0, y.0) {
        BeforeNext(init, whole, x.0);
      }
      CenterCellBlocksJoin(r0, r1, whole, ds, ws, j);
    }
  }

  /** A block of cells of one later center, in drug and week order, may follow
      cells in center, drug and week order. */
  lemma CenterCellBlocksJoin(r0: seq<CellKey>, r1: seq<CellKey>, whole: seq<Center>, ds: seq<Drug>, ws: seq<Week>, j: Center)
    requires CellsAscend(r0, whole, ds, ws) && CellDrugsThenWeeksAscend(r1, ds, ws)
    requires forall y :: y in r1 ==> y.0 == j
    requires forall x, y :: x in r0 && y in r1 ==> Before(whole, x.0, y.0)
    ensures CellsAscend(r0 + r1, whole, ds, ws)
  {
    var r := r0 + r1;
    forall a, b | 0 <= a < b < |r| ensures CellLess(whole, ds, ws, r[a], r[b]) {
      if b < |r0| {
        assert r[a] == r0[a] && r[b] == r0[b];
      } else if a < |r0| {
        assert r[a] == r0[a] && r0[a] in r0;
        assert r[b] == r1[b - |r0|] && r1[b - |r0|] in r1;
      } else {
        assert r[a] == r1[a - |r0|] && r1[a - |r0|] in r1;
        assert r[b] == r1[b - |r0|] && r1[b - |r0|] in r1;
      }
    }
  }

  // ---------------------------------------------------------------------------
  // The reports

  /** Entries kept from a listing sorted by `less` are sorted by `less`. */
  lemma KeptKeepsOrder<K>(keys: seq<K>, values: map<K, real>, less: (K, K) -> bool)
    requires NoDups(keys)
    requires forall a, b :: 0 <= a < b < |keys| ==> less(keys[a], keys[b])
    ensures var r := Kept(keys, values);
            forall a, b :: 0 <= a < b < |r| ==> less(r[a].key, r[b].key)
  {
    var r := Kept(keys, values);
    KeptFollowsListing(keys, values);
    forall a, b | 0 <= a < b < |r| ensures less(r[a].key, r[b].key) {
      assert InOrder(keys, r[a], r[b]);
      var u, v := IndexOf(keys, r[a].key), IndexOf(keys, r[b].key);
      assert keys[u] == r[a].key && keys[v] == r[b].key;
    }
  }

  function ShipOrder(p: Params): (ShipKey, ShipKey) -> bool {
    (x, y) => ShipLess(p.plants, p.centers, p.drugs, p.weeks, x, y)
  }

  function CellOrder(p: Params): (CellKey, CellKey) -> bool {
    (x, y) => CellLess(p.centers, p.drugs, p.weeks, x, y)
  }

  /** Shipments are reported in plant, center, drug, week order, by the
      positions of those values in the index lists. */
  lemma ShipmentsInLoopOrder(p: Params, a: Assignment)
    requires NoDups(p.plants) && NoDups(p.centers) && NoDups(p.drugs) && StrictlyIncreasing(p.weeks)
    ensures var r := Kept(ShipKeys(p.plants, p.centers, p.drugs, p.weeks), a.ship);
            forall m, n :: 0 <= m < n < |r| ==> ShipLess(p.plants, p.centers, p.drugs, p.weeks, r[m].key, r[n].key)
  {
    IncreasingHasNoDups(p.weeks);
    var keys := ShipKeys(p.plants, p.centers, p.drugs, p.weeks);
    assert PrefixOf(p.plants, p.plants);
    ShipKeysOrdered(p.plants, p.centers, p.drugs, p.weeks, p.plants);
    ShipKeysNoDups(p.plants, p.centers, p.drugs, p.weeks);
    assert forall m, n :: 0 <= m < n < |keys| ==> ShipOrder(p)(keys[m], keys[n]);
    KeptKeepsOrder(keys, a.ship, ShipOrder(p));
  }

  /** Inventory, shortage and waste entries are reported in center, drug,
      week order, by the positions of those values in the index lists. */
  lemma CellsInLoopOrder(p: Params, values: map<CellKey, real>)
    requires NoDups(p.centers) && NoDups(p.drugs) && StrictlyIncreasing(p.weeks)
    ensures var r := Kept(CellKeys(p.centers, p.drugs, p.weeks), values);
            forall m, n :: 0 <= m < n < |r| ==> CellLess(p.centers, p.drugs, p.weeks, r[m].key, r[n].key)
  {
    IncreasingHasNoDups(p.weeks);
    var keys := CellKeys(p.centers, p.drugs, p.weeks);
    assert PrefixOf(p.centers, p.centers);
    CellKeysOrdered(p.centers, p.drugs, p.weeks, p.centers);
    CellKeysNoDups(p.centers, p.drugs, p.weeks);
    assert forall m, n :: 0 <= m < n < |keys| ==> CellOrder(p)(keys[m], keys[n]);
    KeptKeepsOrder(keys, values, CellOrder(p));
  }
}
